/**
 * The statistics page (components/Stats.tsx): totals, profit factor, win
 * rate, average winning and losing day, best and worst day, and the equity
 * curve over the journal's days in ascending date order.
 */
module Stats {
  import opened Types
  import opened Folds
  import opened KeyOrder

  /** A point of the equity curve: the start, or the balance after a given day. */
  datatype Label = Start | OnDate(date: string)
  datatype Point = Point(when: Label, balance: real)

  /** Everything the statistics page computes from the journal. */
  datatype Summary = Summary(
    totalTrades: real,
    totalWins: real,
    totalLosses: real,
    netPL: real,
    grossProfit: real,
    grossLoss: real,
    profitFactor: real,
    winRate: real,
    avgWinDay: real,
    avgLossDay: real,
    bestDay: real,
    worstDay: real,
    chartData: seq<Point>)

  /**
   * The running balance after each day of `keys`, starting from `balance`:
   * point i is dated keys[i] and holds the balance plus the profits of days 0..i.
   */
  ghost function Curve(m: TrackerState, keys: seq<string>, balance: real): (r: seq<Point>)
    requires forall i :: 0 <= i < |keys| ==> keys[i] in m
    ensures |r| == |keys|
    ensures forall i :: 0 <= i < |r| ==> r[i].when == OnDate(keys[i])
    ensures forall i :: 0 <= i < |r| ==> r[i].balance == balance + ProfitOf(m, keys[..i + 1])
    decreases |keys|
  {
    if |keys| == 0 then []
    else
      var b := balance + m[keys[0]].profit;
      ProfitOfPrefixes(m, keys);
      [Point(OnDate(keys[0]), b)] + Curve(m, keys[1..], b)
  }

  /** The profits of the first i + 1 days are the first day's profit plus those of the next i days. */
  lemma ProfitOfPrefixes(m: TrackerState, keys: seq<string>)
    requires forall i :: 0 <= i < |keys| ==> keys[i] in m
    requires |keys| > 0
    ensures forall i :: 0 <= i < |keys| ==>
      ProfitOf(m, keys[..i + 1]) == m[keys[0]].profit + ProfitOf(m, keys[1..][..i])
  {
    forall i | 0 <= i < |keys|
      ensures ProfitOf(m, keys[..i + 1]) == m[keys[0]].profit + ProfitOf(m, keys[1..][..i])
    {
      assert keys[..i + 1][1..] == keys[1..][..i];
    }
  }

  /** The win rate in percent: 0 without trades. */
  function WinRate(wins: real, trades: real): (r: real)
    ensures trades <= 0.0 ==> r == 0.0
    ensures trades > 0.0 ==> r * trades == wins * 100.0
    ensures trades > 0.0 && 0.0 <= wins <= trades ==> 0.0 <= r <= 100.0
  {
    if trades > 0.0 then wins / trades * 100.0 else 0.0
  }

  /** The profit factor: gross profit itself when there is no gross loss, their ratio otherwise. */
  function ProfitFactor(grossProfit: real, grossLoss: real): (r: real)
    ensures grossLoss == 0.0 ==> r == grossProfit
    ensures grossLoss != 0.0 ==> r * grossLoss == grossProfit
    ensures grossProfit >= 0.0 && grossLoss >= 0.0 ==> r >= 0.0
  {
    if grossLoss == 0.0 then grossProfit else grossProfit / grossLoss
  }

  /** The mean of a sum over a number of days: 0 when there are no days. */
  function Average(sum: real, days: real): (r: real)
    ensures days <= 0.0 ==> r == 0.0
    ensures days > 0.0 ==> r * days == sum
    ensures days > 0.0 ==> (r > 0.0 <==> sum > 0.0) && (r < 0.0 <==> sum < 0.0)
  {
    if days > 0.0 then sum / days else 0.0
  }

  /**
   * The aggregation of the statistics page over a journal and a starting
   * balance. The gross loss is the size of the sum of the losing days, and the
   * derived figures are the profit factor, win rate and averages of the sums.
   */
  ghost function ComputeStats(m: TrackerState, startBalance: real): (st: Summary)
    ensures st.totalTrades == MapSum(m, Trades) && st.totalWins == MapSum(m, Wins)
    ensures st.totalLosses == st.totalTrades - st.totalWins
    ensures st.netPL == MapSum(m, Profit)
    ensures st.grossProfit == MapSum(m, Gain) && st.grossLoss == -MapSum(m, Drawdown)
    ensures st.profitFactor == ProfitFactor(st.grossProfit, st.grossLoss)
    ensures st.winRate == WinRate(st.totalWins, st.totalTrades)
    ensures st.avgWinDay == Average(MapSum(m, Gain), MapSum(m, WinningDay))
    ensures st.avgLossDay == Average(MapSum(m, Drawdown), MapSum(m, LosingDay))
    ensures m == map[] ==> st.bestDay == 0.0 && st.worstDay == 0.0
    ensures m != map[] ==> st.bestDay == MaxProfit(m) && st.worstDay == MinProfit(m)
  {
    MapSumNonPositive(m, Drawdown);
    var totalTrades := MapSum(m, Trades);
    var totalWins := MapSum(m, Wins);
    var grossProfit := MapSum(m, Gain);
    var drawdown := MapSum(m, Drawdown);
    var grossLoss := if drawdown < 0.0 then -drawdown else drawdown;
    var winningDays := MapSum(m, WinningDay);
    var losingDays := MapSum(m, LosingDay);
    Summary(
      totalTrades := totalTrades,
      totalWins := totalWins,
      totalLosses := totalTrades - totalWins,
      netPL := MapSum(m, Profit),
      grossProfit := grossProfit,
      grossLoss := grossLoss,
      profitFactor := ProfitFactor(grossProfit, grossLoss),
      winRate := WinRate(totalWins, totalTrades),
      avgWinDay := Average(grossProfit, winningDays),
      avgLossDay := Average(drawdown, losingDays),
      bestDay := if m != map[] then MaxProfit(m) else 0.0,
      worstDay := if m != map[] then MinProfit(m) else 0.0,
      chartData := [Point(Start, startBalance)] + Curve(m, Ascending(m.Keys), startBalance))
  }

  /** Net profit is gross profit minus gross loss, and both gross figures are non-negative. */
  lemma NetIsGrossProfitMinusGrossLoss(m: TrackerState, startBalance: real)
    ensures var st := ComputeStats(m, startBalance);
      st.grossProfit >= 0.0 && st.grossLoss >= 0.0 && st.netPL == st.grossProfit - st.grossLoss
  {
    MapSumSplit(m, Gain, Drawdown, Profit);
    MapSumNonNegative(m, Gain);
    MapSumNonPositive(m, Drawdown);
  }

  /** The profit factor is never negative. */
  lemma ProfitFactorNonNegative(m: TrackerState, startBalance: real)
    ensures ComputeStats(m, startBalance).profitFactor >= 0.0
  {
    var st := ComputeStats(m, startBalance);
    NetIsGrossProfitMinusGrossLoss(m, startBalance);
    assert st.profitFactor == ProfitFactor(st.grossProfit, st.grossLoss);
  }

  /** When every day has 0 <= wins <= trades the win rate lies between 0 and 100 and losses are not negative. */
  lemma WinRateBounds(m: TrackerState, startBalance: real)
    requires forall k :: k in m ==> 0 <= m[k].wins <= m[k].trades
    ensures var st := ComputeStats(m, startBalance);
      0.0 <= st.winRate <= 100.0 && st.totalLosses >= 0.0
      && (st.totalTrades == 0.0 ==> st.winRate == 0.0)
  {
    var wins, trades := MapSum(m, Wins), MapSum(m, Trades);
    MapSumLe(m, Wins, Trades);
    MapSumNonNegative(m, Wins);
    var st := ComputeStats(m, startBalance);
    assert st.winRate == WinRate(wins, trades) && st.totalLosses == trades - wins;
  }

  /** There are winning days exactly when some day's profit is positive. */
  lemma WinningDaysCount(m: TrackerState)
    ensures MapSum(m, WinningDay) > 0.0 <==> exists k :: k in m && m[k].profit > 0.0
  {
    if k :| k in m && m[k].profit > 0.0 {
      MapSumPositive(m, WinningDay, k);
    } else {
      MapSumNonPositive(m, WinningDay);
    }
  }

  /** There are losing days exactly when some day's profit is negative. */
  lemma LosingDaysCount(m: TrackerState)
    ensures MapSum(m, LosingDay) > 0.0 <==> exists k :: k in m && m[k].profit < 0.0
  {
    if k :| k in m && m[k].profit < 0.0 {
      MapSumPositive(m, LosingDay, k);
    } else {
      MapSumNonPositive(m, LosingDay);
    }
  }

  /** The average winning day is positive when some day made a profit, and 0 otherwise. */
  lemma AverageWinDaySign(m: TrackerState, startBalance: real)
    ensures (exists k :: k in m && m[k].profit > 0.0) ==> ComputeStats(m, startBalance).avgWinDay > 0.0
    ensures !(exists k :: k in m && m[k].profit > 0.0) ==> ComputeStats(m, startBalance).avgWinDay == 0.0
  {
    var gain, days := MapSum(m, Gain), MapSum(m, WinningDay);
    WinningDaysCount(m);
    if k :| k in m && m[k].profit > 0.0 {
      MapSumPositive(m, Gain, k);
    }
    assert ComputeStats(m, startBalance).avgWinDay == Average(gain, days);
  }

  /** The average losing day is negative when some day made a loss, and 0 otherwise. */
  lemma AverageLossDaySign(m: TrackerState, startBalance: real)
    ensures (exists k :: k in m && m[k].profit < 0.0) ==> ComputeStats(m, startBalance).avgLossDay < 0.0
    ensures !(exists k :: k in m && m[k].profit < 0.0) ==> ComputeStats(m, startBalance).avgLossDay == 0.0
  {
    var st := ComputeStats(m, startBalance);
    assert st.avgLossDay == Average(MapSum(m, Drawdown), MapSum(m, LosingDay));
    LosingDaysCount(m);
    if k :| k in m && m[k].profit < 0.0 {
      DrawdownNegative(m, k);
    }
  }

  lemma DrawdownNegative(m: TrackerState, k: string)
    requires k in m && m[k].profit < 0.0
    ensures MapSum(m, Drawdown) < 0.0
  {
    MapSumRemove(m, Drawdown, k);
    MapSumNonPositive(m - {k}, Drawdown);
  }

  /** An empty journal has best and worst day 0; otherwise both are some day's profit and best >= worst. */
  lemma BestAndWorstDay(m: TrackerState, startBalance: real)
    ensures var st := ComputeStats(m, startBalance);
      (m == map[] ==> st.bestDay == 0.0 && st.worstDay == 0.0)
      && (m != map[] ==>
            && st.bestDay >= st.worstDay
            && (exists k :: k in m && m[k].profit == st.bestDay)
            && (exists k :: k in m && m[k].profit == st.worstDay)
            && (forall k :: k in m ==> st.worstDay <= m[k].profit <= st.bestDay))
  {
    if m != map[] {
      var k :| k in m;
      assert MinProfit(m) <= m[k].profit <= MaxProfit(m);
    }
  }

  /** The sum of the profits of a list of days. */
  ghost function ProfitOf(m: TrackerState, keys: seq<string>): real
    requires forall i :: 0 <= i < |keys| ==> keys[i] in m
    decreases |keys|
  {
    if |keys| == 0 then 0.0 else m[keys[0]].profit + ProfitOf(m, keys[1..])
  }

  /** The last point of a curve is the starting balance plus the profits of all its days. */
  lemma CurveEnds(m: TrackerState, keys: seq<string>, balance: real)
    requires forall i :: 0 <= i < |keys| ==> keys[i] in m
    requires |keys| > 0
    ensures Curve(m, keys, balance)[|keys| - 1].balance == balance + ProfitOf(m, keys)
  {
    assert keys[..|keys|] == keys;
  }

  /** Adding the profits of every key once, in any order, gives the journal's net profit. */
  lemma {:induction false} ProfitOfAllKeys(m: TrackerState, keys: seq<string>)
    requires forall i :: 0 <= i < |keys| ==> keys[i] in m
    requires forall k :: k in m ==> k in keys
    requires forall i, j :: 0 <= i < j < |keys| ==> keys[i] != keys[j]
    ensures ProfitOf(m, keys) == MapSum(m, Profit)
    decreases |keys|
  {
    if |keys| == 0 {
      assert m == map[];
    } else {
      var k := keys[0];
      var m' := m - {k};
      forall i | 0 <= i < |keys[1..]|
        ensures keys[1..][i] in m'
      {
        assert keys[1..][i] == keys[i + 1] != keys[0];
      }
      forall j | j in m'
        ensures j in keys[1..]
      {
        var i :| 0 <= i < |keys| && keys[i] == j;
        assert i != 0;
        assert keys[1..][i - 1] == j;
      }
      ProfitOfAllKeys(m', keys[1..]);
      ProfitOfFrame(m, m', keys[1..]);
      MapSumRemove(m, Profit, k);
    }
  }

  /** The profits of a list of days only depend on those days. */
  lemma {:induction false} ProfitOfFrame(m: TrackerState, m': TrackerState, keys: seq<string>)
    requires forall i :: 0 <= i < |keys| ==> keys[i] in m && keys[i] in m' && m[keys[i]] == m'[keys[i]]
    ensures ProfitOf(m, keys) == ProfitOf(m', keys)
    decreases |keys|
  {
    if |keys| > 0 {
      ProfitOfFrame(m, m', keys[1..]);
    }
  }

  /**
   * The equity curve has one point per day plus the start, starts at the
   * starting balance, visits the days in ascending key order and ends at the
   * starting balance plus the net profit.
   */
  lemma EquityCurve(m: TrackerState, startBalance: real)
    ensures var st := ComputeStats(m, startBalance);
      |st.chartData| == |m| + 1
      && st.chartData[0] == Point(Start, startBalance)
      && (forall i :: 1 <= i < |st.chartData| ==> st.chartData[i].when.OnDate? && st.chartData[i].when.date in m)
      && (forall i, j :: 1 <= i < j < |st.chartData| ==> Less(st.chartData[i].when.date, st.chartData[j].when.date))
      && st.chartData[|st.chartData| - 1].balance == startBalance + st.netPL
  {
    var keys := Ascending(m.Keys);
    assert |m.Keys| == |m|;
    if |keys| > 0 {
      CurveEnds(m, keys, startBalance);
      forall i, j | 0 <= i < j < |keys|
        ensures keys[i] != keys[j]
      {
        if keys[i] == keys[j] {
          LessIrreflexive(keys[i]);
        }
      }
      ProfitOfAllKeys(m, keys);
    }
  }
}
