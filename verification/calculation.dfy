/**
 * The projection engine (services/calculationService.ts, generateData): the
 * settings are turned into checkpoint rows while an unrounded running balance
 * is carried from step to step; every emitted amount is a cents snapshot of it.
 */
module Calculation {
  import opened Types
  import opened Money

  /** Smallest lot size a row may show. */
  const MinLot: real := 0.01

  /**
   * How many rows the loop `for (i = 1; i <= steps; i++)` emits: the number of
   * whole numbers i with 1 <= i <= steps (steps may be fractional or negative).
   */
  function StepCount(s: CalculationSettings): (n: nat)
    ensures forall i: int {:trigger i as real} :: 1 <= i <= n <==> 1 <= i && i as real <= s.steps
  {
    if s.steps < 1.0 then 0 else s.steps.Floor
  }

  /** The unrounded risk on a balance: balance * (risk% / 100). */
  function UnroundedRisk(s: CalculationSettings, balance: real): real {
    balance * (s.riskPercentage / 100.0)
  }

  /** The unrounded profit on a balance: the unrounded risk times the reward ratio. */
  function UnroundedProfit(s: CalculationSettings, balance: real): real {
    UnroundedRisk(s, balance) * s.rewardRatio
  }

  /** The unrounded balance entering step k: it starts at startAmount and grows by the unrounded profit. */
  function Balance(s: CalculationSettings, k: int): (b: real)
    requires k >= 1
    ensures k == 1 ==> b == s.startAmount
    ensures s.riskPercentage == 0.0 || s.rewardRatio == 0.0 ==> b == s.startAmount
    decreases k
  {
    if k == 1 then s.startAmount
    else Balance(s, k - 1) + UnroundedProfit(s, Balance(s, k - 1))
  }

  /** The lot size of a balance: the balance over the divisor, in cents, but never below MinLot. */
  function LotSize(balance: real, divisor: real): (r: real)
    requires divisor != 0.0
    ensures r >= MinLot
    ensures r == MinLot || r == Round2(balance / divisor)
    ensures r >= Round2(balance / divisor)
  {
    var rounded := Round2(balance / divisor);
    if MinLot >= rounded then MinLot else rounded
  }

  /** The row emitted for step `id` when the running balance is `balance`. */
  function MakeRow(s: CalculationSettings, id: int, balance: real): (row: CheckpointRow)
    requires s.lotDivisor != 0.0
    ensures row.id == id
    ensures row.lotSize == LotSize(balance, s.lotDivisor)
    ensures row.amount == Round2(balance)
    ensures row.riskAmount == Round2(UnroundedRisk(s, balance))
    ensures row.profit == Round2(UnroundedProfit(s, balance))
    ensures row.total == Round2(balance + UnroundedProfit(s, balance))
  {
    var risk := UnroundedRisk(s, balance);
    var profit := UnroundedProfit(s, balance);
    CheckpointRow(
      id := id,
      amount := Round2(balance),
      lotSize := LotSize(balance, s.lotDivisor),
      profit := Round2(profit),
      riskAmount := Round2(risk),
      total := Round2(balance + profit))
  }

  /** The whole plan as a sequence: row i (0-based) is step i + 1 at the balance entering that step. */
  function Plan(s: CalculationSettings): (rows: seq<CheckpointRow>)
    requires s.lotDivisor != 0.0
    ensures |rows| == StepCount(s)
    ensures forall i :: 0 <= i < |rows| ==> rows[i].id == i + 1
    ensures forall i :: 0 <= i < |rows| ==> rows[i] == MakeRow(s, i + 1, Balance(s, i + 1))
    ensures forall i :: 1 <= i < |rows| ==> rows[i].amount == rows[i - 1].total
  {
    var rows := seq(StepCount(s), i requires 0 <= i => MakeRow(s, i + 1, Balance(s, i + 1)));
    RowsChain(s, rows);
    rows
  }

  /** Rows built from consecutive balances chain: each row's amount is the previous row's total. */
  lemma RowsChain(s: CalculationSettings, rows: seq<CheckpointRow>)
    requires s.lotDivisor != 0.0
    requires forall i :: 0 <= i < |rows| ==> rows[i] == MakeRow(s, i + 1, Balance(s, i + 1))
    ensures forall i :: 1 <= i < |rows| ==> rows[i].amount == rows[i - 1].total
  {
    forall i | 1 <= i < |rows|
      ensures rows[i].amount == rows[i - 1].total
    {
      BalanceNext(s, i);
    }
  }

  /** The balance entering step k + 1 is the balance entering step k plus its unrounded profit. */
  lemma BalanceNext(s: CalculationSettings, k: int)
    requires k >= 1
    ensures Balance(s, k + 1) == Balance(s, k) + UnroundedProfit(s, Balance(s, k))
  {
  }

  /** The loop of generateData, carrying the unrounded balance forward. */
  method GenerateData(s: CalculationSettings) returns (rows: seq<CheckpointRow>)
    requires s.lotDivisor != 0.0
    ensures rows == Plan(s)
  {
    rows := [];
    var currentAmount := s.startAmount;
    var i := 1;
    while i as real <= s.steps
      invariant 1 <= i <= StepCount(s) + 1
      invariant |rows| == i - 1
      invariant currentAmount == Balance(s, i)
      invariant forall j :: 0 <= j < |rows| ==> rows[j] == MakeRow(s, j + 1, Balance(s, j + 1))
      decreases StepCount(s) + 1 - i
    {
      var profit := UnroundedProfit(s, currentAmount);
      rows := rows + [MakeRow(s, i, currentAmount)];
      currentAmount := currentAmount + profit;
      i := i + 1;
    }
  }

  /** The factor the unrounded balance is multiplied by at every step. */
  function GrowthFactor(s: CalculationSettings): real {
    1.0 + s.riskPercentage / 100.0 * s.rewardRatio
  }

  function Pow(x: real, n: nat): real
    decreases n
  {
    if n == 0 then 1.0 else x * Pow(x, n - 1)
  }

  /** The balance entering step k is startAmount * GrowthFactor^(k-1). */
  lemma {:induction false} BalanceClosedForm(s: CalculationSettings, k: int)
    requires k >= 1
    ensures Balance(s, k) == s.startAmount * Pow(GrowthFactor(s), k - 1)
    decreases k
  {
    if k > 1 {
      BalanceClosedForm(s, k - 1);
      var b := Balance(s, k - 1);
      calc {
        Balance(s, k);
        b + b * (s.riskPercentage / 100.0) * s.rewardRatio;
        b * GrowthFactor(s);
        s.startAmount * Pow(GrowthFactor(s), k - 2) * GrowthFactor(s);
        { PowStep(GrowthFactor(s), k - 2); }
        s.startAmount * Pow(GrowthFactor(s), k - 1);
      }
    }
  }

  lemma PowStep(x: real, n: nat)
    ensures Pow(x, n) * x == Pow(x, n + 1)
  {
  }

  /** With a non-negative start, risk and reward, the unrounded balance never falls. */
  lemma {:induction false} BalanceNonDecreasing(s: CalculationSettings, k: int)
    requires k >= 1
    requires s.startAmount >= 0.0 && s.riskPercentage >= 0.0 && s.rewardRatio >= 0.0
    ensures 0.0 <= Balance(s, k) <= Balance(s, k + 1)
    decreases k
  {
    if k > 1 {
      BalanceNonDecreasing(s, k - 1);
    }
    var b := Balance(s, k);
    assert b >= 0.0;
    assert UnroundedProfit(s, b) == b * (s.riskPercentage / 100.0) * s.rewardRatio;
    NonNegProduct(b, s.riskPercentage / 100.0, s.rewardRatio);
  }

  lemma NonNegProduct(a: real, b: real, c: real)
    requires a >= 0.0 && b >= 0.0 && c >= 0.0
    ensures a * b * c >= 0.0
  {
  }

  /** With a non-negative start, risk and reward, the plan's row amounts never fall. */
  lemma PlanAmountsNonDecreasing(s: CalculationSettings, i: int)
    requires s.lotDivisor != 0.0
    requires s.startAmount >= 0.0 && s.riskPercentage >= 0.0 && s.rewardRatio >= 0.0
    requires 0 <= i && i + 1 < |Plan(s)|
    ensures Plan(s)[i].amount <= Plan(s)[i + 1].amount
  {
    BalanceNonDecreasing(s, i + 1);
    Round2Monotone(Balance(s, i + 1), Balance(s, i + 2));
  }

  /** The default start 20 and divisor 1000 give a first lot of 0.02, whatever the risk and reward. */
  lemma DefaultFirstLot(risk: real, reward: real, steps: real)
    requires steps >= 1.0
    ensures |Plan(CalculationSettings(20.0, risk, reward, 1000.0, steps))| >= 1
    ensures Plan(CalculationSettings(20.0, risk, reward, 1000.0, steps))[0].lotSize == 0.02
  {
    var s := CalculationSettings(20.0, risk, reward, 1000.0, steps);
    assert Balance(s, 1) == 20.0;
    assert HalfUpCents(20.0 / 1000.0) == 2;
  }

  /** The three-step plan with start 20, risk 20%, reward 1 and divisor 1000, row by row. */
  lemma ThreeStepScenario()
    ensures Plan(CalculationSettings(20.0, 20.0, 1.0, 1000.0, 3.0)) == [
      CheckpointRow(1, 20.0, 0.02, 4.0, 4.0, 24.0),
      CheckpointRow(2, 24.0, 0.02, 4.8, 4.8, 28.8),
      CheckpointRow(3, 28.8, 0.03, 5.76, 5.76, 34.56)]
  {
    var s := CalculationSettings(20.0, 20.0, 1.0, 1000.0, 3.0);
    assert Balance(s, 1) == 20.0;
    assert Balance(s, 2) == 24.0;
    assert Balance(s, 3) == 28.8;
    assert HalfUpCents(20.0 / 1000.0) == 2;
    assert HalfUpCents(24.0 / 1000.0) == 2;
    assert HalfUpCents(28.8 / 1000.0) == 3;
    assert HalfUpCents(4.0) == 400;
    assert HalfUpCents(4.8) == 480;
    assert HalfUpCents(5.76) == 576;
    assert HalfUpCents(20.0) == 2000;
    assert HalfUpCents(24.0) == 2400;
    assert HalfUpCents(28.8) == 2880;
    assert HalfUpCents(34.56) == 3456;
  }
}
