/**
 * The calendar journal screen (components/Tracker.tsx): the interactive
 * WIN / LOSS action for the current plan step, the reload that follows every
 * change of the plan progress, the manual day editor, the clear-all button and
 * the month's profit.
 */
module Tracker {
  import opened Wrappers
  import opened Types
  import opened DateKeys
  import opened Coordinator
  import opened Folds
  import Calculation

  /** The screen's view of the world: the application state and the journal copy it displays. */
  datatype Screen = Screen(app: App, local: TrackerState)

  /** `planProgress.currentStep || 1`: a zero cursor counts as step 1. */
  function CurrentStepId(progress: PlanProgress): (id: int)
    ensures progress.currentStep != 0 ==> id == progress.currentStep
    ensures progress.currentStep == 0 ==> id == 1
  {
    if progress.currentStep == 0 then 1 else progress.currentStep
  }

  /** `rows.find(row => row.id === id)`: the first row with that id, if any. */
  function FindRow(rows: seq<CheckpointRow>, id: int): (r: Option<CheckpointRow>)
    ensures r.None? <==> forall i :: 0 <= i < |rows| ==> rows[i].id != id
    ensures r.Some? ==> r.value in rows && r.value.id == id
    ensures r.Some? ==> exists i :: 0 <= i < |rows| && rows[i] == r.value && forall j :: 0 <= j < i ==> rows[j].id != id
    decreases |rows|
  {
    if |rows| == 0 then None
    else if rows[0].id == id then Some(rows[0])
    else FindRow(rows[1..], id)
  }

  /** In a generated plan the row of step k is found exactly when 1 <= k <= the number of rows, and it is row k - 1. */
  lemma FindRowInPlan(s: CalculationSettings, k: int)
    requires s.lotDivisor != 0.0
    ensures 1 <= k <= |Calculation.Plan(s)| ==> FindRow(Calculation.Plan(s), k) == Some(Calculation.Plan(s)[k - 1])
    ensures !(1 <= k <= |Calculation.Plan(s)|) ==> FindRow(Calculation.Plan(s), k) == None
  {
    var rows := Calculation.Plan(s);
    if 1 <= k <= |rows| {
      FindFirst(rows, k, k - 1);
    }
  }

  lemma {:induction false} FindFirst(rows: seq<CheckpointRow>, id: int, i: int)
    requires 0 <= i < |rows| && rows[i].id == id
    requires forall j :: 0 <= j < i ==> rows[j].id != id
    ensures FindRow(rows, id) == Some(rows[i])
    decreases i
  {
    if i > 0 {
      FindFirst(rows[1..], id, i - 1);
    }
  }

  /**
   * The screen's optimistic update of its own journal copy: the existing entry
   * (or a zero entry) with the amount, one trade and the win added; an
   * existing entry keeps its own date field.
   */
  function OptimisticUpdate(local: TrackerState, key: string, status: Outcome, amount: real): (j: TrackerState)
    ensures j.Keys == local.Keys + {key}
    ensures forall k :: k in local && k != key ==> j[k] == local[k]
    ensures key in local ==> j[key] == local[key].(profit := local[key].profit + amount,
                                                   trades := local[key].trades + 1,
                                                   wins := local[key].wins + WinIncrement(status))
    ensures key !in local ==> j[key] == DailyTradeData(key, amount, 1, WinIncrement(status))
  {
    var existing := if key in local then local[key] else ZeroDay(key);
    local[key := existing.(profit := existing.profit + amount,
                           trades := existing.trades + 1,
                           wins := existing.wins + WinIncrement(status))]
  }

  /**
   * handleInteractiveAction: when the current step has a plan row and a date is
   * selected, register the row's payoff on the selected date and update the
   * screen's copy; otherwise nothing happens.
   */
  function InteractiveAction(screen: Screen, planData: seq<CheckpointRow>, selected: Option<string>,
                             status: Outcome, today: CalendarDate): (r: Screen)
    ensures FindRow(planData, CurrentStepId(screen.app.progress)).None? || !Present(selected) ==> r == screen
    ensures FindRow(planData, CurrentStepId(screen.app.progress)).Some? && Present(selected) ==>
      var row := FindRow(planData, CurrentStepId(screen.app.progress)).value;
      && r.app == RegisterResult(screen.app, row.id, status, Payoff(row, status), selected, today)
      && r.app.progress.history[row.id].date == selected.value
      && r.local == OptimisticUpdate(screen.local, selected.value, status, Payoff(row, status))
  {
    var found := FindRow(planData, CurrentStepId(screen.app.progress));
    if found.Some? && Present(selected) then
      var row := found.value;
      var amount := Payoff(row, status);
      Screen(RegisterResult(screen.app, row.id, status, amount, selected, today),
             OptimisticUpdate(screen.local, selected.value, status, amount))
    else screen
  }

  /**
   * When the screen's copy is the stored journal and every day carries its own
   * key as date, the optimistic update produces exactly the journal the
   * application stores.
   */
  lemma OptimisticMatchesStored(screen: Screen, planData: seq<CheckpointRow>, selected: Option<string>,
                                status: Outcome, today: CalendarDate)
    requires screen.local == ReadJournal(screen.app.store)
    requires Keyed(screen.local)
    ensures var r := InteractiveAction(screen, planData, selected, status, today);
      r.local == ReadJournal(r.app.store) && Keyed(r.local)
  {
    var r := InteractiveAction(screen, planData, selected, status, today);
    var found := FindRow(planData, CurrentStepId(screen.app.progress));
    if found.Some? && Present(selected) {
      var key := selected.value;
      var amount := Payoff(found.value, status);
      var a := OptimisticUpdate(screen.local, key, status, amount);
      var b := AccumulateDay(screen.local, key, status, amount);
      assert a.Keys == b.Keys;
      assert forall k :: k in a ==> a[k] == b[k];
    }
  }

  /** The three text fields of the day editor. */
  datatype EditForm = EditForm(profit: string, trades: string, wins: string)

  /**
   * `parseFloat` of the profit field. An empty field reads as NaN in JavaScript,
   * so it is no number here whatever the parser parameter returns for "".
   */
  function ProfitInput(form: EditForm, parseFloat: string -> Option<real>): (r: Option<real>)
    ensures form.profit == "" ==> r.None?
    ensures form.profit != "" ==> r == parseFloat(form.profit)
  {
    if form.profit == "" then None else parseFloat(form.profit)
  }

  /**
   * `parseInt(field) || 0` for the trades and wins fields. An empty field reads
   * as NaN in JavaScript and so counts as 0 whatever the parser parameter returns
   * for "", and so does any field that does not parse.
   */
  function CountInput(field: string, parseInt: string -> Option<int>): (n: int)
    ensures field == "" ==> n == 0
    ensures field != "" ==> n == parseInt(field).GetOr(0)
  {
    if field == "" then 0 else parseInt(field).GetOr(0)
  }

  /**
   * The outcome of the day editor's save: `None` when it returns early without
   * saving, otherwise the new journal (written to the screen and to storage).
   */
  function SaveJournal(local: TrackerState, selected: Option<string>, form: EditForm,
                       parseFloat: string -> Option<real>, parseInt: string -> Option<int>,
                       toCanonical: real -> real): (r: Option<TrackerState>)
    ensures r.None? <==> !Present(selected) || (parseFloat(form.profit).None? && form.profit != "")
    ensures r.Some? && form.profit == "" && form.trades == "" ==>
      r.value.Keys == local.Keys - {selected.value}
    ensures r.Some? && !(form.profit == "" && form.trades == "") ==>
      && r.value.Keys == local.Keys + {selected.value}
      && r.value[selected.value].date == selected.value
      && (form.profit == "" ==> r.value[selected.value].profit == 0.0)
      && (form.profit != "" ==> r.value[selected.value].profit == toCanonical(parseFloat(form.profit).value))
      && r.value[selected.value].trades == CountInput(form.trades, parseInt)
      && r.value[selected.value].wins == CountInput(form.wins, parseInt)
    ensures r.Some? ==> forall k :: k in local && k != selected.value ==> k in r.value && r.value[k] == local[k]
  {
    if !Present(selected) then None
    else
      var profitInput := ProfitInput(form, parseFloat);
      if profitInput.None? && form.profit != "" then None
      else
        var key := selected.value;
        if form.profit == "" && form.trades == "" then Some(local - {key})
        else
          var profit := match profitInput { case Some(p) => toCanonical(p) case None => 0.0 };
          Some(local[key := DailyTradeData(key, profit, CountInput(form.trades, parseInt), CountInput(form.wins, parseInt))])
  }

  /** handleSave: the saved journal replaces both the screen's copy and the stored journal. */
  function HandleSave(screen: Screen, selected: Option<string>, form: EditForm,
                      parseFloat: string -> Option<real>, parseInt: string -> Option<int>,
                      toCanonical: real -> real): (r: Screen)
    ensures SaveJournal(screen.local, selected, form, parseFloat, parseInt, toCanonical).None? ==> r == screen
    ensures SaveJournal(screen.local, selected, form, parseFloat, parseInt, toCanonical).Some? ==>
      && r.local == SaveJournal(screen.local, selected, form, parseFloat, parseInt, toCanonical).value
      && ReadJournal(r.app.store) == r.local
      && r.app.progress == screen.app.progress && r.app.store.progress == screen.app.store.progress
  {
    match SaveJournal(screen.local, selected, form, parseFloat, parseInt, toCanonical)
    case None => screen
    case Some(j) => Screen(screen.app.(store := screen.app.store.(journal := Some(j))), j)
  }

  /** Saving the same form twice is saving it once: a manual save overwrites, it does not accumulate. */
  lemma SaveIdempotent(screen: Screen, selected: Option<string>, form: EditForm,
                       parseFloat: string -> Option<real>, parseInt: string -> Option<int>,
                       toCanonical: real -> real)
    ensures var once := HandleSave(screen, selected, form, parseFloat, parseInt, toCanonical);
      HandleSave(once, selected, form, parseFloat, parseInt, toCanonical) == once
  {
    var once := HandleSave(screen, selected, form, parseFloat, parseInt, toCanonical);
    var j := SaveJournal(screen.local, selected, form, parseFloat, parseInt, toCanonical);
    if j.Some? {
      var key := selected.value;
      var j2 := SaveJournal(once.local, selected, form, parseFloat, parseInt, toCanonical);
      if form.profit == "" && form.trades == "" {
        assert j2.value == j.value - {key};
        assert j.value - {key} == j.value;
      } else {
        var entry := j.value[key];
        assert j2.value == j.value[key := entry];
        assert j.value[key := entry] == j.value;
      }
    }
  }

  /** The editor does not check wins against trades: a save can leave a day with more wins than trades. */
  lemma SaveDoesNotBoundWins(screen: Screen, selected: Option<string>, form: EditForm,
                             parseFloat: string -> Option<real>, parseInt: string -> Option<int>,
                             toCanonical: real -> real)
    requires Present(selected) && form.profit == "" && form.trades != "" && form.wins != ""
    requires parseInt(form.trades) == Some(1) && parseInt(form.wins) == Some(5)
    ensures !WinsBounded(HandleSave(screen, selected, form, parseFloat, parseInt, toCanonical).local)
  {
    assert selected.value in HandleSave(screen, selected, form, parseFloat, parseInt, toCanonical).local;
  }

  /**
   * handleClearAll after the confirmation: in interactive mode the full reset,
   * otherwise only the stored journal is removed; the screen's copy is emptied
   * either way. Without confirmation nothing changes.
   */
  function ClearAll(screen: Screen, interactive: bool, confirmed: bool): (r: Screen)
    ensures !confirmed ==> r == screen
    ensures confirmed ==> r.local == map[] && ReadJournal(r.app.store) == map[]
    ensures confirmed && interactive ==> r.app == PerformFullReset(screen.app)
    ensures confirmed && !interactive ==> r.app.progress == screen.app.progress
                                          && r.app.store.progress == screen.app.store.progress
                                          && r.app.store.journal.None?
  {
    if !confirmed then screen
    else if interactive then Screen(PerformFullReset(screen.app), map[])
    else Screen(screen.app.(store := screen.app.store.(journal := None)), map[])
  }

  /** The screen together with its selected date key; `null` is `None`. */
  datatype View = View(screen: Screen, selected: Option<string>)

  /**
   * The screen's effect on the plan progress, which runs on mount and again
   * after every change of the progress, so after every registration and every
   * full reset: today's key becomes the selected date and the screen's copy is
   * reloaded from storage.
   */
  function ProgressReload(v: View, today: CalendarDate): (r: View)
    ensures r.screen.app == v.screen.app
    ensures r.screen.local == ReadJournal(v.screen.app.store)
    ensures r.selected == Some(TodayKey(today)) && Present(r.selected)
  {
    View(Screen(v.screen.app, ReadJournal(v.screen.app.store)), Some(TodayKey(today)))
  }

  /**
   * A WIN / LOSS on the calendar screen: the interactive action on the selected
   * date and then, since a registration changes the progress, the reload.
   * Without a current row or a selected date nothing happens.
   */
  function CalendarPress(v: View, planData: seq<CheckpointRow>, status: Outcome, today: CalendarDate): (r: View)
    ensures FindRow(planData, CurrentStepId(v.screen.app.progress)).None? || !Present(v.selected) ==> r == v
    ensures FindRow(planData, CurrentStepId(v.screen.app.progress)).Some? && Present(v.selected) ==>
      && r.screen.app == InteractiveAction(v.screen, planData, v.selected, status, today).app
      && r.screen.local == ReadJournal(r.screen.app.store)
      && r.selected == Some(TodayKey(today))
  {
    if FindRow(planData, CurrentStepId(v.screen.app.progress)).Some? && Present(v.selected) then
      ProgressReload(View(InteractiveAction(v.screen, planData, v.selected, status, today), v.selected), today)
    else v
  }

  /**
   * On a screen that shows the stored journal with every day dated by its key,
   * the reload after a press shows exactly the optimistic update's journal.
   */
  lemma ReloadKeepsOptimisticView(v: View, planData: seq<CheckpointRow>, status: Outcome, today: CalendarDate)
    requires v.screen.local == ReadJournal(v.screen.app.store)
    requires Keyed(v.screen.local)
    ensures CalendarPress(v, planData, status, today).screen.local
            == InteractiveAction(v.screen, planData, v.selected, status, today).local
  {
    OptimisticMatchesStored(v.screen, planData, v.selected, status, today);
  }

  /**
   * handleClearAll on the screen with its selection. A confirmed interactive
   * clear resets the progress, so the reload follows; it shows the same empty
   * journal the clear put on screen and selects today. A manual clear leaves
   * the progress and the selection alone.
   */
  function ClearAllView(v: View, interactive: bool, confirmed: bool, today: CalendarDate): (r: View)
    ensures !confirmed ==> r == v
    ensures confirmed && !interactive ==> r.screen == ClearAll(v.screen, false, true) && r.selected == v.selected
    ensures confirmed && interactive ==>
      && r.screen.app == PerformFullReset(v.screen.app)
      && r.screen.local == map[]
      && r.selected == Some(TodayKey(today))
  {
    var cleared := ClearAll(v.screen, interactive, confirmed);
    if confirmed && interactive then ProgressReload(View(cleared, v.selected), today)
    else View(cleared, v.selected)
  }

  /**
   * The month's profit: the sum over the days whose key starts with "YYYY-MM".
   * It is the journal's net profit when every day lies in the month, and 0 when none does.
   */
  ghost function MonthlyProfit(local: TrackerState, year: int, monthIndex: int): (p: real)
    ensures (forall k :: k in local ==> MonthPrefix(year, monthIndex) <= k) ==> p == MapSum(local, Profit)
    ensures (forall k :: k in local ==> !(MonthPrefix(year, monthIndex) <= k)) ==> p == 0.0
  {
    var within := WithPrefix(local, MonthPrefix(year, monthIndex));
    assert (forall k :: k in local ==> MonthPrefix(year, monthIndex) <= k) ==> within == local;
    assert (forall k :: k in local ==> !(MonthPrefix(year, monthIndex) <= k)) ==> within == map[];
    MapSum(within, Profit)
  }

  /** The month's profit and the profit of all other days add up to the journal's net profit. */
  lemma MonthlyProfitPartition(local: TrackerState, year: int, monthIndex: int)
    ensures MonthlyProfit(local, year, monthIndex)
            + MapSum(WithoutPrefix(local, MonthPrefix(year, monthIndex)), Profit) == MapSum(local, Profit)
  {
    MapSumPartition(local, Profit, MonthPrefix(year, monthIndex));
  }

  /**
   * An interactive WIN / LOSS on a day whose key starts with the displayed
   * month's prefix (every `DateKey` of that month does, by
   * `DateKeyHasMonthPrefix`) raises that month's profit by exactly the amount
   * registered.
   */
  lemma InteractiveActionMonthlyProfit(screen: Screen, planData: seq<CheckpointRow>, year: int, monthIndex: int,
                                       key: string, status: Outcome, today: CalendarDate)
    requires FindRow(planData, CurrentStepId(screen.app.progress)).Some?
    requires key != "" && MonthPrefix(year, monthIndex) <= key
    ensures var row := FindRow(planData, CurrentStepId(screen.app.progress)).value;
      var r := InteractiveAction(screen, planData, Some(key), status, today);
      MonthlyProfit(r.local, year, monthIndex) == MonthlyProfit(screen.local, year, monthIndex) + Payoff(row, status)
  {
    var row := FindRow(planData, CurrentStepId(screen.app.progress)).value;
    var r := InteractiveAction(screen, planData, Some(key), status, today);
    assert Present(Some(key));
    assert r.local == OptimisticUpdate(screen.local, key, status, Payoff(row, status));
    OptimisticPrefixSum(screen.local, MonthPrefix(year, monthIndex), key, status, Payoff(row, status));
  }

  /** The optimistic update of a day with the prefix raises the prefix sum of profit by exactly the amount. */
  lemma OptimisticPrefixSum(local: TrackerState, prefix: string, key: string, status: Outcome, amount: real)
    requires prefix <= key
    ensures MapSum(WithPrefix(OptimisticUpdate(local, key, status, amount), prefix), Profit)
         == MapSum(WithPrefix(local, prefix), Profit) + amount
  {
    var existing := if key in local then local[key] else ZeroDay(key);
    var entry := existing.(profit := existing.profit + amount,
                           trades := existing.trades + 1,
                           wins := existing.wins + WinIncrement(status));
    assert OptimisticUpdate(local, key, status, amount) == local[key := entry];
    PrefixSumUpdate(local, prefix, key, entry);
  }

  /** Writing an entry under a key with the prefix changes the prefix sum by the new profit minus the old. */
  lemma PrefixSumUpdate(m: TrackerState, prefix: string, key: string, entry: DailyTradeData)
    requires prefix <= key
    ensures MapSum(WithPrefix(m[key := entry], prefix), Profit)
            == MapSum(WithPrefix(m, prefix), Profit) - (if key in m then m[key].profit else 0.0) + entry.profit
  {
    assert WithPrefix(m[key := entry], prefix) == WithPrefix(m, prefix)[key := entry];
    MapSumUpdate(WithPrefix(m, prefix), Profit, key, entry);
  }
}
