/**
 * Folds over the calendar journal. The source folds `Object.values` /
 * `Object.keys` in insertion order; over exact reals a sum does not depend on
 * the order, so a sum is defined by taking out any one key at a time, and
 * `MapSumRemove` proves that every choice gives the same total.
 */
module Folds {
  import opened Types

  /** The per-day quantities the journal statistics add up. */
  datatype Measure = Profit | Gain | Drawdown | Trades | Wins | WinningDay | LosingDay

  /** The value of a measure on one day. */
  function Measured(d: DailyTradeData, f: Measure): real {
    match f
    case Profit => d.profit
    case Gain => if d.profit > 0.0 then d.profit else 0.0
    case Drawdown => if d.profit < 0.0 then d.profit else 0.0
    case Trades => d.trades as real
    case Wins => d.wins as real
    case WinningDay => if d.profit > 0.0 then 1.0 else 0.0
    case LosingDay => if d.profit < 0.0 then 1.0 else 0.0
  }

  /**
   * The sum of a measure over every day of the journal: 0 for no days; gross
   * profit and the day counts are never negative, and the sum of the losses never positive.
   */
  ghost function MapSum(m: TrackerState, f: Measure): (r: real)
    ensures m == map[] ==> r == 0.0
    ensures f == Gain || f == WinningDay || f == LosingDay ==> r >= 0.0
    ensures f == Drawdown ==> r <= 0.0
    decreases |m|
  {
    if m == map[] then 0.0
    else
      var k :| k in m;
      Measured(m[k], f) + MapSum(m - {k}, f)
  }

  /** Taking out any key gives the same sum: the fold does not depend on the order of the days. */
  lemma {:induction false} MapSumRemove(m: TrackerState, f: Measure, k: string)
    requires k in m
    ensures MapSum(m, f) == Measured(m[k], f) + MapSum(m - {k}, f)
    decreases |m|
  {
    var j :| j in m && MapSum(m, f) == Measured(m[j], f) + MapSum(m - {j}, f);
    if j != k {
      var m' := m - {j};
      assert |m'| < |m| by { assert m'.Keys < m.Keys; }
      MapSumRemove(m', f, k);
      var m'' := m - {k};
      assert |m''| < |m| by { assert m''.Keys < m.Keys; }
      MapSumRemove(m'', f, j);
      assert m' - {k} == m'' - {j};
    }
  }

  /** Writing an entry for `k` changes the sum by the new value minus the old one (zero when absent). */
  lemma MapSumUpdate(m: TrackerState, f: Measure, k: string, v: DailyTradeData)
    ensures MapSum(m[k := v], f) == MapSum(m, f) - (if k in m then Measured(m[k], f) else 0.0) + Measured(v, f)
  {
    var m' := m[k := v];
    MapSumRemove(m', f, k);
    if k in m {
      MapSumRemove(m, f, k);
      assert m' - {k} == m - {k};
    } else {
      assert m' - {k} == m;
    }
  }

  /** Removing an entry takes its value out of the sum. */
  lemma MapSumDelete(m: TrackerState, f: Measure, k: string)
    ensures MapSum(m - {k}, f) == MapSum(m, f) - (if k in m then Measured(m[k], f) else 0.0)
  {
    if k in m {
      MapSumRemove(m, f, k);
    } else {
      assert m - {k} == m;
    }
  }

  /** A sum of a measure that is at most another measure on every day is at most the other sum. */
  lemma {:induction false} MapSumLe(m: TrackerState, f: Measure, g: Measure)
    requires forall k :: k in m ==> Measured(m[k], f) <= Measured(m[k], g)
    ensures MapSum(m, f) <= MapSum(m, g)
    decreases |m|
  {
    if m != map[] {
      var k :| k in m;
      MapSumRemove(m, f, k);
      MapSumRemove(m, g, k);
      assert |m - {k}| < |m| by { assert (m - {k}).Keys < m.Keys; }
      MapSumLe(m - {k}, f, g);
    }
  }

  /** Two measures that add up to a third on every day have sums that add up to its sum. */
  lemma {:induction false} MapSumSplit(m: TrackerState, f: Measure, g: Measure, h: Measure)
    requires forall k :: k in m ==> Measured(m[k], f) + Measured(m[k], g) == Measured(m[k], h)
    ensures MapSum(m, f) + MapSum(m, g) == MapSum(m, h)
    decreases |m|
  {
    if m != map[] {
      var k :| k in m;
      MapSumRemove(m, f, k);
      MapSumRemove(m, g, k);
      MapSumRemove(m, h, k);
      assert |m - {k}| < |m| by { assert (m - {k}).Keys < m.Keys; }
      MapSumSplit(m - {k}, f, g, h);
    }
  }

  /** The sum over the days whose key satisfies a prefix test plus the sum over the rest is the whole sum. */
  lemma {:induction false} MapSumPartition(m: TrackerState, f: Measure, prefix: string)
    ensures MapSum(WithPrefix(m, prefix), f) + MapSum(WithoutPrefix(m, prefix), f) == MapSum(m, f)
    decreases |m|
  {
    if m != map[] {
      var k :| k in m;
      var m' := m - {k};
      assert |m'| < |m| by { assert m'.Keys < m.Keys; }
      MapSumPartition(m', f, prefix);
      MapSumRemove(m, f, k);
      FilterRemove(m, prefix, k);
      if prefix <= k {
        MapSumRemove(WithPrefix(m, prefix), f, k);
      } else {
        MapSumRemove(WithoutPrefix(m, prefix), f, k);
      }
    }
  }

  /** Removing a day from the journal removes it from whichever side of the prefix split it was on. */
  lemma FilterRemove(m: TrackerState, prefix: string, k: string)
    ensures prefix <= k ==>
      (WithPrefix(m - {k}, prefix) == WithPrefix(m, prefix) - {k} && WithoutPrefix(m - {k}, prefix) == WithoutPrefix(m, prefix))
    ensures !(prefix <= k) ==>
      (WithPrefix(m - {k}, prefix) == WithPrefix(m, prefix) && WithoutPrefix(m - {k}, prefix) == WithoutPrefix(m, prefix) - {k})
  {
    var inside, outside := WithPrefix(m, prefix), WithoutPrefix(m, prefix);
    var inside', outside' := WithPrefix(m - {k}, prefix), WithoutPrefix(m - {k}, prefix);
    if prefix <= k {
      assert inside'.Keys == (inside - {k}).Keys;
      assert outside'.Keys == outside.Keys;
    } else {
      assert inside'.Keys == inside.Keys;
      assert outside'.Keys == (outside - {k}).Keys;
    }
  }

  /** A measure that is never negative has a non-negative sum. */
  lemma {:induction false} MapSumNonNegative(m: TrackerState, f: Measure)
    requires forall k :: k in m ==> Measured(m[k], f) >= 0.0
    ensures MapSum(m, f) >= 0.0
    decreases |m|
  {
    if m != map[] {
      var k :| k in m;
      MapSumRemove(m, f, k);
      assert |m - {k}| < |m| by { assert (m - {k}).Keys < m.Keys; }
      MapSumNonNegative(m - {k}, f);
    }
  }

  /** A measure that is never positive has a non-positive sum. */
  lemma {:induction false} MapSumNonPositive(m: TrackerState, f: Measure)
    requires forall k :: k in m ==> Measured(m[k], f) <= 0.0
    ensures MapSum(m, f) <= 0.0
    decreases |m|
  {
    if m != map[] {
      var k :| k in m;
      MapSumRemove(m, f, k);
      assert |m - {k}| < |m| by { assert (m - {k}).Keys < m.Keys; }
      MapSumNonPositive(m - {k}, f);
    }
  }

  /** A measure that is never negative and positive on one day has a positive sum. */
  lemma MapSumPositive(m: TrackerState, f: Measure, k: string)
    requires forall j :: j in m ==> Measured(m[j], f) >= 0.0
    requires k in m && Measured(m[k], f) > 0.0
    ensures MapSum(m, f) > 0.0
  {
    MapSumRemove(m, f, k);
    MapSumNonNegative(m - {k}, f);
  }

  /** The days whose key starts with `prefix` (`k.startsWith(prefix)`). */
  function WithPrefix(m: TrackerState, prefix: string): (r: TrackerState)
    ensures forall k :: k in r <==> k in m && prefix <= k
    ensures forall k :: k in r ==> r[k] == m[k]
  {
    map k | k in m && prefix <= k :: m[k]
  }

  /** The days whose key does not start with `prefix`. */
  function WithoutPrefix(m: TrackerState, prefix: string): (r: TrackerState)
    ensures forall k :: k in r <==> k in m && !(prefix <= k)
    ensures forall k :: k in r ==> r[k] == m[k]
  {
    map k | k in m && !(prefix <= k) :: m[k]
  }

  /** The largest profit of any day of a non-empty journal (`Math.max(...profits)`). */
  ghost function MaxProfit(m: TrackerState): (r: real)
    requires m != map[]
    ensures exists k :: k in m && m[k].profit == r
    ensures forall k :: k in m ==> m[k].profit <= r
    decreases |m|
  {
    var k :| k in m;
    var rest := m - {k};
    assert forall j :: j in m ==> j == k || j in rest;
    if rest == map[] then m[k].profit
    else
      var r' := MaxProfit(rest);
      if m[k].profit >= r' then m[k].profit else r'
  }

  /** The smallest profit of any day of a non-empty journal (`Math.min(...profits)`). */
  ghost function MinProfit(m: TrackerState): (r: real)
    requires m != map[]
    ensures exists k :: k in m && m[k].profit == r
    ensures forall k :: k in m ==> r <= m[k].profit
    decreases |m|
  {
    var k :| k in m;
    var rest := m - {k};
    assert forall j :: j in m ==> j == k || j in rest;
    if rest == map[] then m[k].profit
    else
      var r' := MinProfit(rest);
      if m[k].profit <= r' then m[k].profit else r'
  }
}
