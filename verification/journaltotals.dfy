/**
 * What registrations do to the journal as a whole: every registration adds
 * exactly its amount to the net profit, one trade, and one win for a WIN.
 */
module JournalTotals {
  import opened Wrappers
  import opened Types
  import opened Folds
  import opened Coordinator

  /** Booking one registration on a day moves the journal totals by exactly its amount, one trade and its win. */
  lemma AccumulateTotals(before: TrackerState, key: string, status: Outcome, amount: real)
    ensures var after := AccumulateDay(before, key, status, amount);
      && MapSum(after, Profit) == MapSum(before, Profit) + amount
      && MapSum(after, Trades) == MapSum(before, Trades) + 1.0
      && MapSum(after, Wins) == MapSum(before, Wins) + WinIncrement(status) as real
  {
    var after := AccumulateDay(before, key, status, amount);
    var existing := if key in before then before[key] else ZeroDay(key);
    var entry := DailyTradeData(key, existing.profit + amount, existing.trades + 1, existing.wins + WinIncrement(status));
    assert after.Keys == before[key := entry].Keys;
    assert forall k :: k in after ==> after[k] == before[key := entry][k];
    assert after == before[key := entry];
    MapSumUpdate(before, Profit, key, entry);
    MapSumUpdate(before, Trades, key, entry);
    MapSumUpdate(before, Wins, key, entry);
  }

  /** One registration moves the stored journal's totals by exactly its amount, one trade and its win. */
  lemma RegisterTotals(app: App, stepId: int, status: Outcome, amount: real,
                       dateOverride: Option<string>, today: CalendarDate)
    ensures var before := ReadJournal(app.store);
      var after := ReadJournal(RegisterResult(app, stepId, status, amount, dateOverride, today).store);
      && MapSum(after, Profit) == MapSum(before, Profit) + amount
      && MapSum(after, Trades) == MapSum(before, Trades) + 1.0
      && MapSum(after, Wins) == MapSum(before, Wins) + WinIncrement(status) as real
  {
    AccumulateTotals(ReadJournal(app.store), ResolveDate(dateOverride, today), status, amount);
  }

  /** The sum of the amounts of a list of actions. */
  function AmountSum(actions: seq<Action>): real
    decreases |actions|
  {
    if |actions| == 0 then 0.0 else actions[0].amount + AmountSum(actions[1..])
  }

  /** The number of WIN actions in a list. */
  function WinCount(actions: seq<Action>): nat
    decreases |actions|
  {
    if |actions| == 0 then 0 else WinIncrement(actions[0].status) + WinCount(actions[1..])
  }

  /** A replay adds the amounts, the number of actions and the number of wins to the journal totals. */
  lemma {:induction false} ReplayTotals(app: App, actions: seq<Action>, today: CalendarDate)
    ensures var before := ReadJournal(app.store);
      var after := ReadJournal(Replay(app, actions, today).store);
      && MapSum(after, Profit) == MapSum(before, Profit) + AmountSum(actions)
      && MapSum(after, Trades) == MapSum(before, Trades) + |actions| as real
      && MapSum(after, Wins) == MapSum(before, Wins) + WinCount(actions) as real
    decreases |actions|
  {
    if |actions| > 0 {
      var a := actions[0];
      var next := RegisterResult(app, app.progress.currentStep, a.status, a.amount, a.date, today);
      RegisterTotals(app, app.progress.currentStep, a.status, a.amount, a.date, today);
      ReplayTotals(next, actions[1..], today);
    }
  }

  /** After a full reset and N registrations the journal holds N trades, their wins and their net amount. */
  lemma ReplayFromResetTotals(app: App, actions: seq<Action>, today: CalendarDate)
    ensures var after := ReadJournal(Replay(PerformFullReset(app), actions, today).store);
      && MapSum(after, Profit) == AmountSum(actions)
      && MapSum(after, Trades) == |actions| as real
      && MapSum(after, Wins) == WinCount(actions) as real
  {
    ReplayTotals(PerformFullReset(app), actions, today);
  }
}
