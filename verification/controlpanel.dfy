/**
 * The settings form (components/ControlPanel.tsx): every input is parsed as a
 * number and, when it parses, written into exactly one setting; the start
 * amount is entered in the display currency and stored in the canonical one.
 * Also the "growth per trade" figure shown under the reward ratio.
 */
module ControlPanel {
  import opened Wrappers
  import opened Types
  import opened Money
  import Calculation

  /** The keys of CalculationSettings an input may edit. */
  datatype SettingKey = StartAmount | RiskPercentage | RewardRatio | LotDivisor | Steps

  /** The value stored under a key. */
  function Field(s: CalculationSettings, key: SettingKey): real {
    match key
    case StartAmount => s.startAmount
    case RiskPercentage => s.riskPercentage
    case RewardRatio => s.rewardRatio
    case LotDivisor => s.lotDivisor
    case Steps => s.steps
  }

  /** `{ ...settings, [key]: value }`: the settings with one key replaced. */
  function WithField(s: CalculationSettings, key: SettingKey, value: real): (r: CalculationSettings)
    ensures Field(r, key) == value
    ensures forall k :: k != key ==> Field(r, k) == Field(s, k)
  {
    match key
    case StartAmount => s.(startAmount := value)
    case RiskPercentage => s.(riskPercentage := value)
    case RewardRatio => s.(rewardRatio := value)
    case LotDivisor => s.(lotDivisor := value)
    case Steps => s.(steps := value)
  }

  /** Two settings with the same value under every key are the same settings. */
  lemma FieldsDetermineSettings(a: CalculationSettings, b: CalculationSettings)
    requires forall k :: Field(a, k) == Field(b, k)
    ensures a == b
  {
    assert Field(a, StartAmount) == Field(b, StartAmount);
    assert Field(a, RiskPercentage) == Field(b, RiskPercentage);
    assert Field(a, RewardRatio) == Field(b, RewardRatio);
    assert Field(a, LotDivisor) == Field(b, LotDivisor);
    assert Field(a, Steps) == Field(b, Steps);
  }

  /**
   * handleChange: `parsed` is parseFloat of the input text (None for NaN) and
   * `toCanonical` is the currency conversion of an entered start amount.
   * None means no update is issued; Some carries the settings passed to onUpdate.
   */
  function HandleChange(s: CalculationSettings, key: SettingKey, parsed: Option<real>, toCanonical: real -> real)
    : (r: Option<CalculationSettings>)
    ensures r.None? <==> parsed.None?
    ensures r.Some? ==> Field(r.value, key) == (if key == StartAmount then toCanonical(parsed.value) else parsed.value)
    ensures r.Some? ==> forall k :: k != key ==> Field(r.value, k) == Field(s, k)
  {
    match parsed
    case None => None
    case Some(n) =>
      if key == StartAmount then Some(WithField(s, key, toCanonical(n)))
      else Some(WithField(s, key, n))
  }

  /**
   * Entering the same text twice gives the same settings as entering it once,
   * and re-entering the value a key already holds (in stored units) changes nothing.
   */
  lemma {:induction false} HandleChangeIdempotent(s: CalculationSettings, key: SettingKey, parsed: Option<real>,
                                                  toCanonical: real -> real)
    requires parsed.Some?
    ensures var once := HandleChange(s, key, parsed, toCanonical).value;
            HandleChange(once, key, parsed, toCanonical) == Some(once)
    ensures key != StartAmount && parsed.value == Field(s, key) ==> HandleChange(s, key, parsed, toCanonical) == Some(s)
  {
    var once := HandleChange(s, key, parsed, toCanonical).value;
    var twice := HandleChange(once, key, parsed, toCanonical).value;
    FieldsDetermineSettings(once, twice);
    if key != StartAmount && parsed.value == Field(s, key) {
      FieldsDetermineSettings(once, s);
    }
  }

  /** The "growth per trade" figure: risk% times reward ratio, shown to two decimals. */
  function GrowthPerTrade(s: CalculationSettings): (r: real)
    ensures -1.0 / 200.0 <= r - s.riskPercentage * s.rewardRatio <= 1.0 / 200.0
  {
    Round2(s.riskPercentage * s.rewardRatio)
  }

  /**
   * Before rounding, the figure is exactly the percentage the projection grows by
   * per step: the balance entering step k + 1 is the balance entering step k
   * times 1 + (risk% * reward) / 100.
   */
  lemma GrowthPerTradeIsProjectionGrowth(s: CalculationSettings, k: int)
    requires k >= 1
    ensures Calculation.GrowthFactor(s) == 1.0 + s.riskPercentage * s.rewardRatio / 100.0
    ensures Calculation.Balance(s, k + 1)
         == Calculation.Balance(s, k) * (1.0 + s.riskPercentage * s.rewardRatio / 100.0)
  {
    Calculation.BalanceNext(s, k);
  }
}
