/**
 * The slot and week arithmetic of the month grid (renderCalendar in
 * components/Tracker.tsx): slots are laid out seven per week, the month's
 * days start at slot `firstDay`, and each week row carries the total profit
 * and the number of journal days of its seven slots.
 */
module Calendar {
  import opened Types
  import opened DateKeys

  /** `Math.ceil((daysInMonth + firstDay) / 7) * 7`: the least multiple of 7 that fits the month. */
  function TotalSlots(daysInMonth: nat, firstDay: nat): (n: nat)
    ensures n % 7 == 0
    ensures daysInMonth + firstDay <= n < daysInMonth + firstDay + 7
  {
    (daysInMonth + firstDay + 6) / 7 * 7
  }

  /** The day of the month shown in a slot (zero or negative before the 1st). */
  function DayNumber(slot: int, firstDay: int): int {
    slot - firstDay + 1
  }

  /** A slot shows a day of the displayed month. */
  predicate InMonth(slot: int, firstDay: int, daysInMonth: int) {
    0 < DayNumber(slot, firstDay) <= daysInMonth
  }

  /** The in-month slots are exactly firstDay .. firstDay + daysInMonth - 1, all inside the grid. */
  lemma InMonthSlots(slot: int, firstDay: nat, daysInMonth: nat)
    ensures InMonth(slot, firstDay, daysInMonth) <==> firstDay <= slot < firstDay + daysInMonth
    ensures InMonth(slot, firstDay, daysInMonth) ==> 0 <= slot < TotalSlots(daysInMonth, firstDay)
  {
  }

  /** The totals a week row shows: profit of its journal days and how many there were. */
  datatype WeekTotal = WeekTotal(profit: real, days: nat)

  const NoWeek := WeekTotal(0.0, 0)

  function Add(a: WeekTotal, b: WeekTotal): (r: WeekTotal)
    ensures r.profit == a.profit + b.profit && r.days == a.days + b.days
  {
    WeekTotal(a.profit + b.profit, a.days + b.days)
  }

  lemma AddAssoc(a: WeekTotal, b: WeekTotal, c: WeekTotal)
    ensures Add(Add(a, b), c) == Add(a, Add(b, c))
  {
  }

  /** The month on display: the journal, the year, the 0-based month, its length and its first weekday. */
  datatype MonthView = MonthView(journal: TrackerState, year: int, monthIndex: int, daysInMonth: nat, firstDay: nat)

  /** What day `day` of the month contributes: its journal entry under the key `YYYY-MM-DD`, if any. */
  function DayTotal(v: MonthView, day: int): (r: WeekTotal)
    ensures r.days <= 1
    ensures r.days == 1 <==> DateKey(v.year, v.monthIndex + 1, day) in v.journal
    ensures DateKey(v.year, v.monthIndex + 1, day) in v.journal ==>
      r.profit == v.journal[DateKey(v.year, v.monthIndex + 1, day)].profit
    ensures DateKey(v.year, v.monthIndex + 1, day) !in v.journal ==> r == NoWeek
  {
    var key := DateKey(v.year, v.monthIndex + 1, day);
    if key in v.journal then WeekTotal(v.journal[key].profit, 1) else NoWeek
  }

  /** What one slot contributes: its day's total if the slot is in the month, nothing otherwise. */
  function SlotTotal(v: MonthView, slot: int): WeekTotal {
    if InMonth(slot, v.firstDay, v.daysInMonth) then DayTotal(v, DayNumber(slot, v.firstDay)) else NoWeek
  }

  /** The slot contributions of a month as one function of the slot index. */
  function Contribution(v: MonthView): int -> WeekTotal {
    slot => SlotTotal(v, slot)
  }

  /** The total of slots lo .. hi - 1, each slot weighed by `f`. */
  function Range(f: int -> WeekTotal, lo: int, hi: int): WeekTotal
    decreases hi - lo
  {
    if hi <= lo then NoWeek else Add(Range(f, lo, hi - 1), f(hi - 1))
  }

  /** The totals of week row `w`: slots 7w .. 7w + 6. */
  function WeekRow(f: int -> WeekTotal, w: int): WeekTotal {
    Range(f, 7 * w, 7 * w + 7)
  }

  /**
   * The loop of renderCalendar reduced to its week rows, for slots weighed by
   * `f`: profit and day count accumulate slot by slot and are emitted and reset
   * after every 7th slot.
   */
  method SumWeeks(f: int -> WeekTotal, totalSlots: nat) returns (weeks: seq<WeekTotal>)
    requires totalSlots % 7 == 0
    ensures |weeks| == totalSlots / 7
    ensures forall w :: 0 <= w < |weeks| ==> weeks[w] == WeekRow(f, w)
  {
    weeks := [];
    var week := NoWeek;
    var i := 0;
    ghost var start := 0;
    while i < totalSlots
      invariant 0 <= i <= totalSlots
      invariant start == 7 * |weeks| && start <= i < start + 7
      invariant week == Range(f, start, i)
      invariant forall w :: 0 <= w < |weeks| ==> weeks[w] == WeekRow(f, w)
    {
      RangeStep(f, start, i);
      SlotEndsWeek(|weeks|, i);
      week := Add(week, f(i));
      if (i + 1) % 7 == 0 {
        weeks := weeks + [week];
        week := NoWeek;
        start := start + 7;
      }
      i := i + 1;
    }
    LastWeekEnds(|weeks|, totalSlots);
  }

  /** The week rows of the displayed month: one per 7 grid slots, each totalling its slots' journal days. */
  method WeeklyTotals(v: MonthView) returns (weeks: seq<WeekTotal>)
    ensures |weeks| == TotalSlots(v.daysInMonth, v.firstDay) / 7
    ensures forall w :: 0 <= w < |weeks| ==> weeks[w] == WeekRow(Contribution(v), w)
  {
    weeks := SumWeeks(Contribution(v), TotalSlots(v.daysInMonth, v.firstDay));
  }

  /** Within week k, the test `(i + 1) % 7 == 0` holds exactly at the week's last slot. */
  lemma SlotEndsWeek(k: nat, i: nat)
    requires 7 * k <= i < 7 * k + 7
    ensures (i + 1) % 7 == 0 <==> i + 1 == 7 * k + 7
  {
  }

  /** A multiple of 7 inside week k is the week's first slot. */
  lemma LastWeekEnds(k: nat, n: nat)
    requires n % 7 == 0 && 7 * k <= n < 7 * k + 7
    ensures k == n / 7
  {
  }

  /** Extending a run of slots by one slot adds that slot's total. */
  lemma RangeStep(f: int -> WeekTotal, lo: int, hi: int)
    requires lo <= hi
    ensures Range(f, lo, hi + 1) == Add(Range(f, lo, hi), f(hi))
  {
  }

  /** Splitting a run of slots in two splits its total. */
  lemma {:induction false} RangeSplit(f: int -> WeekTotal, lo: int, mid: int, hi: int)
    requires lo <= mid <= hi
    ensures Range(f, lo, hi) == Add(Range(f, lo, mid), Range(f, mid, hi))
    decreases hi - mid
  {
    if mid < hi {
      RangeSplit(f, lo, mid, hi - 1);
      AddAssoc(Range(f, lo, mid), Range(f, mid, hi - 1), f(hi - 1));
    }
  }

  /** The sum of the first `n` week rows. */
  function WeeksTotal(weeks: seq<WeekTotal>, n: nat): WeekTotal
    requires n <= |weeks|
  {
    if n == 0 then NoWeek else Add(WeeksTotal(weeks, n - 1), weeks[n - 1])
  }

  /** The total of days 1 .. n, each day weighed by `g`. */
  function DaysTotal(g: int -> WeekTotal, n: nat): WeekTotal {
    if n == 0 then NoWeek else Add(DaysTotal(g, n - 1), g(n))
  }

  /** The day contributions of a month as one function of the day of the month. */
  function DayContribution(v: MonthView): int -> WeekTotal {
    day => DayTotal(v, day)
  }

  /** How many days of the month the first `count` slots show. */
  function DaysShown(firstDay: nat, daysInMonth: nat, count: nat): (n: nat)
    ensures n <= daysInMonth
    ensures count >= firstDay + daysInMonth ==> n == daysInMonth
  {
    if count <= firstDay then 0
    else if count - firstDay <= daysInMonth then count - firstDay
    else daysInMonth
  }

  lemma AddNoWeek(a: WeekTotal)
    ensures Add(a, NoWeek) == a
  {
  }

  /**
   * When slot s shows day s - firstDay + 1 (and nothing outside the month),
   * the first `count` slots total exactly the days they show.
   */
  lemma {:induction false} SlotsAreDays(f: int -> WeekTotal, g: int -> WeekTotal, firstDay: nat, daysInMonth: nat, count: nat)
    requires forall s :: f(s) == if InMonth(s, firstDay, daysInMonth) then g(DayNumber(s, firstDay)) else NoWeek
    ensures Range(f, 0, count) == DaysTotal(g, DaysShown(firstDay, daysInMonth, count))
    decreases count
  {
    if count > 0 {
      SlotsAreDays(f, g, firstDay, daysInMonth, count - 1);
      if InMonth(count - 1, firstDay, daysInMonth) {
        assert DaysShown(firstDay, daysInMonth, count) == DaysShown(firstDay, daysInMonth, count - 1) + 1
            == DayNumber(count - 1, firstDay);
      } else {
        assert DaysShown(firstDay, daysInMonth, count) == DaysShown(firstDay, daysInMonth, count - 1);
        AddNoWeek(Range(f, 0, count - 1));
      }
    }
  }

  /** The first `n` week rows total the first 7n slots. */
  lemma {:induction false} WeeksArePrefixes(f: int -> WeekTotal, weeks: seq<WeekTotal>, n: nat)
    requires n <= |weeks|
    requires forall w :: 0 <= w < |weeks| ==> weeks[w] == WeekRow(f, w)
    ensures WeeksTotal(weeks, n) == Range(f, 0, 7 * n)
    decreases n
  {
    if n > 0 {
      WeeksArePrefixes(f, weeks, n - 1);
      RangeSplit(f, 0, 7 * (n - 1), 7 * n);
    }
  }

  /** Each slot of the grid shows day `slot - firstDay + 1` when that day is in the month, and nothing otherwise. */
  lemma SlotsShowDays(v: MonthView)
    ensures forall s :: (Contribution(v)(s)
      == if InMonth(s, v.firstDay, v.daysInMonth) then DayContribution(v)(DayNumber(s, v.firstDay)) else NoWeek)
  {
  }

  /** The week rows of the grid together total exactly the journal days 1 .. daysInMonth of the month. */
  lemma WeeksCoverMonth(v: MonthView, weeks: seq<WeekTotal>)
    requires |weeks| == TotalSlots(v.daysInMonth, v.firstDay) / 7
    requires forall w :: 0 <= w < |weeks| ==> weeks[w] == WeekRow(Contribution(v), w)
    ensures WeeksTotal(weeks, |weeks|) == DaysTotal(DayContribution(v), v.daysInMonth)
  {
    var slots := TotalSlots(v.daysInMonth, v.firstDay);
    assert WeeksTotal(weeks, |weeks|) == Range(Contribution(v), 0, slots) by {
      WeeksArePrefixes(Contribution(v), weeks, |weeks|);
    }
    assert Range(Contribution(v), 0, slots) == DaysTotal(DayContribution(v), v.daysInMonth) by {
      SlotsShowDays(v);
      SlotsAreDays(Contribution(v), DayContribution(v), v.firstDay, v.daysInMonth, slots);
    }
  }
}
