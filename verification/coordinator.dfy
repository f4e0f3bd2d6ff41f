/**
 * The plan-progress / journal coordinator of App.tsx: registering a WIN or
 * LOSS for a plan step, and the full reset. Storage is two optional records.
 */
module Coordinator {
  import opened Wrappers
  import opened Types
  import opened DateKeys

  /** The two persisted records; `None` is a record that is not stored. */
  datatype Store = Store(progress: Option<PlanProgress>, journal: Option<TrackerState>)

  /** Reading the progress record: a missing record reads as the default progress. */
  function ReadProgress(st: Store): (p: PlanProgress)
    ensures st.progress.Some? ==> p == st.progress.value
    ensures st.progress.None? ==> p == DefaultProgress
  {
    st.progress.GetOr(DefaultProgress)
  }

  /** Reading the journal record: a missing record reads as the empty journal. */
  function ReadJournal(st: Store): (j: TrackerState)
    ensures st.journal.Some? ==> j == st.journal.value
    ensures st.journal.None? ==> j == map[]
  {
    st.journal.GetOr(map[])
  }

  /** The application's state: the progress it holds in memory, and the store. */
  datatype App = App(progress: PlanProgress, store: Store)

  /** The date a registration is booked on: the override when present and non-empty, else today's key. */
  function ResolveDate(dateOverride: Option<string>, today: CalendarDate): (key: string)
    ensures Present(dateOverride) ==> key == dateOverride.value
    ensures !Present(dateOverride) ==> key == TodayKey(today)
  {
    if Present(dateOverride) then dateOverride.value else TodayKey(today)
  }

  /**
   * Add one registration to the journal entry of `key`, an absent day counting
   * as a zero entry; the entry is rewritten with `key` as its date.
   */
  function AccumulateDay(journal: TrackerState, key: string, status: Outcome, amount: real): (j: TrackerState)
    ensures j.Keys == journal.Keys + {key}
    ensures key in journal ==> j[key] == DailyTradeData(key, journal[key].profit + amount,
                                                         journal[key].trades + 1, journal[key].wins + WinIncrement(status))
    ensures key !in journal ==> j[key] == DailyTradeData(key, amount, 1, WinIncrement(status))
    ensures forall k :: k in journal && k != key ==> j[k] == journal[k]
  {
    var existing := if key in journal then journal[key] else ZeroDay(key);
    journal[key := DailyTradeData(key, existing.profit + amount, existing.trades + 1, existing.wins + WinIncrement(status))]
  }

  /** handleRegisterResult: the step id is trusted, not compared with the current step. */
  function RegisterResult(app: App, stepId: int, status: Outcome, amount: real,
                          dateOverride: Option<string>, today: CalendarDate): (r: App)
    ensures r.progress.currentStep == stepId + 1
    ensures stepId in r.progress.history
    ensures r.progress.history[stepId] == PlanStepResult(status, ResolveDate(dateOverride, today), amount)
    ensures r.progress.history.Keys == app.progress.history.Keys + {stepId}
    ensures forall k :: k in app.progress.history && k != stepId ==> r.progress.history[k] == app.progress.history[k]
    ensures ReadProgress(r.store) == r.progress
    ensures ReadJournal(r.store) == AccumulateDay(ReadJournal(app.store), ResolveDate(dateOverride, today), status, amount)
  {
    var key := ResolveDate(dateOverride, today);
    var progress := PlanProgress(stepId + 1, app.progress.history[stepId := PlanStepResult(status, key, amount)]);
    var journal := AccumulateDay(ReadJournal(app.store), key, status, amount);
    App(progress, Store(Some(progress), Some(journal)))
  }

  /** performFullReset: both records are cleared and then written back with explicit defaults. */
  function PerformFullReset(app: App): (r: App)
    ensures r.progress == DefaultProgress
    ensures r.store == Store(Some(PlanProgress(1, map[])), Some(map[]))
  {
    var cleared := Store(None, None);
    var written := cleared.(progress := Some(DefaultProgress)).(journal := Some(map[]));
    App(DefaultProgress, written)
  }

  /**
   * The bookkeeping that in-order registration keeps: the cursor is at least 1
   * and the history holds exactly the steps below it.
   */
  predicate Consistent(p: PlanProgress) {
    && p.currentStep >= 1
    && (forall k :: k in p.history ==> 1 <= k < p.currentStep)
    && (forall k :: 1 <= k < p.currentStep ==> k in p.history)
  }

  /** The default progress is consistent. */
  lemma DefaultConsistent()
    ensures Consistent(DefaultProgress)
  {
  }

  /** Registering the current step keeps progress consistent and advances the cursor by exactly one. */
  lemma RegisterCurrentStepKeepsConsistent(app: App, status: Outcome, amount: real,
                                           dateOverride: Option<string>, today: CalendarDate)
    requires Consistent(app.progress)
    ensures var r := RegisterResult(app, app.progress.currentStep, status, amount, dateOverride, today);
      Consistent(r.progress) && r.progress.currentStep == app.progress.currentStep + 1
      && |r.progress.history| == |app.progress.history| + 1
  {
    var entry := PlanStepResult(status, ResolveDate(dateOverride, today), amount);
    assert RegisterResult(app, app.progress.currentStep, status, amount, dateOverride, today).progress
        == PlanProgress(app.progress.currentStep + 1, app.progress.history[app.progress.currentStep := entry]);
    RecordCurrentStep(app.progress, entry);
  }

  /** Recording an entry for the current step of consistent progress and moving the cursor on keeps it consistent. */
  lemma RecordCurrentStep(p: PlanProgress, entry: PlanStepResult)
    requires Consistent(p)
    ensures var q := PlanProgress(p.currentStep + 1, p.history[p.currentStep := entry]);
      Consistent(q) && |q.history| == |p.history| + 1
  {
    var h := p.history[p.currentStep := entry];
    assert p.currentStep !in p.history;
    assert |h| == |p.history| + 1;
    assert forall k :: k in h ==> 1 <= k < p.currentStep + 1;
    assert forall k :: 1 <= k < p.currentStep + 1 ==> k in h;
  }

  /** Because the step id is not checked, registering step 3 first leaves steps 1 and 2 out of the history. */
  lemma SkippedStepBreaksConsistency(app: App, status: Outcome, amount: real,
                                     dateOverride: Option<string>, today: CalendarDate)
    requires app.progress == DefaultProgress
    ensures !Consistent(RegisterResult(app, 3, status, amount, dateOverride, today).progress)
  {
    var r := RegisterResult(app, 3, status, amount, dateOverride, today);
    assert 1 !in r.progress.history;
  }

  /** A registration keeps every day's date equal to its key. */
  lemma RegisterKeepsKeyed(app: App, stepId: int, status: Outcome, amount: real,
                           dateOverride: Option<string>, today: CalendarDate)
    requires Keyed(ReadJournal(app.store))
    ensures Keyed(ReadJournal(RegisterResult(app, stepId, status, amount, dateOverride, today).store))
  {
  }

  /** A registration keeps wins <= trades on every day. */
  lemma RegisterKeepsWinsBounded(app: App, stepId: int, status: Outcome, amount: real,
                                 dateOverride: Option<string>, today: CalendarDate)
    requires WinsBounded(ReadJournal(app.store))
    ensures WinsBounded(ReadJournal(RegisterResult(app, stepId, status, amount, dateOverride, today).store))
  {
  }

  /** One user action in a replay: the outcome, the signed amount and the optional date. */
  datatype Action = Action(status: Outcome, amount: real, date: Option<string>)

  /** Apply the actions in order, each one registered for the step that is current at that moment. */
  function Replay(app: App, actions: seq<Action>, today: CalendarDate): (r: App)
    decreases |actions|
  {
    if |actions| == 0 then app
    else
      var a := actions[0];
      Replay(RegisterResult(app, app.progress.currentStep, a.status, a.amount, a.date, today), actions[1..], today)
  }

  /** From a consistent state, n in-order registrations advance the cursor by n and stay consistent. */
  lemma {:induction false} ReplayAdvances(app: App, actions: seq<Action>, today: CalendarDate)
    requires Consistent(app.progress)
    ensures Consistent(Replay(app, actions, today).progress)
    ensures Replay(app, actions, today).progress.currentStep == app.progress.currentStep + |actions|
    decreases |actions|
  {
    if |actions| > 0 {
      var a := actions[0];
      RegisterCurrentStepKeepsConsistent(app, a.status, a.amount, a.date, today);
      ReplayAdvances(RegisterResult(app, app.progress.currentStep, a.status, a.amount, a.date, today), actions[1..], today);
    }
  }

  /** After a full reset, N in-order registrations leave the cursor at N + 1 and history keys exactly 1..N. */
  lemma ReplayFromReset(app: App, actions: seq<Action>, today: CalendarDate)
    ensures var r := Replay(PerformFullReset(app), actions, today);
      r.progress.currentStep == |actions| + 1
      && (forall k :: k in r.progress.history <==> 1 <= k <= |actions|)
  {
    ReplayAdvances(PerformFullReset(app), actions, today);
  }
}
