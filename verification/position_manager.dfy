/** Position sizing and risk bookkeeping (src/position_manager.py) and its variant with the
    capital constraints removed (src/position_manager_no_limits.py). The subclass is modelled
    as the same class with a `policy` fixed at construction: the two methods it overrides
    dispatch on it. */
module Positions {
  import opened Common

  /** Which `calculate_position_size` / `validate_trade_risk` the object runs. */
  datatype SizingPolicy = Tiered | NoLimits

  /** The capital used when none (or zero) is configured. */
  const DefaultCapital: real := 100000.0
  /** The default `max_risk_per_trade`, also the one the no-limits constructor passes on. */
  const DefaultMaxRisk: real := 0.02
  /** Below this much capital the tiered sizing refuses to trade. */
  const MinCapital: real := 4000.0
  /** The daily loss limit as a fraction of current capital. */
  const DailyLossFraction: real := 0.05

  // ---------------------------------------------------------------- sizing rules

  /** `count` straddles at `price` each fit in `budget`. */
  predicate Affordable(count: int, price: real, budget: real)
  {
    count as real * price <= budget
  }

  /** `max_contracts_risk`: how many straddles the risk budget `capital * maxRisk` pays for,
      truncated toward zero; 1 when the premium is not positive. */
  function RiskContracts(capital: real, maxRisk: real, premium: real): (n: int)
    ensures premium <= 0.0 ==> n == 1
    ensures premium > 0.0 ==> (n >= 1 <==> Affordable(1, premium, capital * maxRisk))
    ensures premium > 0.0 && n >= 1 ==> Affordable(n, premium, capital * maxRisk)
    ensures premium > 0.0 && n >= 0 ==> !Affordable(n + 1, premium, capital * maxRisk)
  {
    if premium > 0.0 then
      WholeUnitsCount(capital * maxRisk, premium);
      Truncate(capital * maxRisk / premium)
    else 1
  }

  /** The most contracts an account tier allows: 3 from 100k, 2 from 50k, 1 below. */
  function TierCap(capital: real): int
  {
    if capital >= 100000.0 then 3 else if capital >= 50000.0 then 2 else 1
  }

  /** The end of the tiered `calculate_position_size` once the tier's `base_contracts` is
      known: a positive base stands; otherwise the small-account exception grants one contract
      when the premium is at most a tenth of the capital; a positive count is then clamped to
      `max(1, min(count, max_contracts_risk))`. */
  function Settle(base: int, capital: real, premium: real, risk: int): int
  {
    var contracts :=
      if base >= 1 then base
      else if capital >= MinCapital && premium <= capital * 0.10 then 1
      else 0;
    if contracts > 0 then MaxInt(1, MinInt(contracts, risk)) else contracts
  }

  /** The tiered `calculate_position_size`. Under 4000 the method returns 0, but its error log
      first divides the premium by the capital, which raises at a capital of exactly 0. */
  function TieredSize(capital: real, maxRisk: real, premium: real): (r: Result<int>)
    ensures r.Err? <==> capital == 0.0
    ensures r.Ok? ==> 0 <= r.value <= TierCap(capital)
    ensures capital < MinCapital && capital != 0.0 ==> r == Ok(0)
    ensures MinCapital <= capital < 10000.0 ==> r == Ok(1)
  {
    var risk := RiskContracts(capital, maxRisk, premium);
    if capital >= 100000.0 then Ok(Settle(MinInt(3, risk), capital, premium, risk))
    else if capital >= 50000.0 then Ok(Settle(MinInt(2, risk), capital, premium, risk))
    else if capital >= 10000.0 then Ok(Settle(MinInt(1, risk), capital, premium, risk))
    else if capital >= MinCapital then Ok(Settle(1, capital, premium, risk))
    else if capital == 0.0 then Err(ZeroDivision)
    else Ok(0)
  }

  /** From 10k up, when the risk budget pays for at least one straddle the size is the smaller
      of the tier's cap and what the budget pays for; when it does not, the size is 1 if the
      premium is at most a tenth of the capital and 0 otherwise. */
  lemma TieredSizeAboveTenThousand(capital: real, maxRisk: real, premium: real)
    requires capital >= 10000.0
    ensures var risk := RiskContracts(capital, maxRisk, premium);
      && (risk >= 1 ==> TieredSize(capital, maxRisk, premium) == Ok(MinInt(TierCap(capital), risk)))
      && (risk < 1 ==> TieredSize(capital, maxRisk, premium) == Ok(if premium <= capital * 0.10 then 1 else 0))
  {
  }

  /** More than one contract only ever fits the risk budget: the premium is positive and all the
      contracts together cost at most `capital * maxRisk`. */
  lemma TieredSizeWithinBudget(capital: real, maxRisk: real, premium: real)
    requires TieredSize(capital, maxRisk, premium).Ok? && TieredSize(capital, maxRisk, premium).value >= 2
    ensures premium > 0.0
    ensures TieredSize(capital, maxRisk, premium).value as real * premium <= capital * maxRisk
  {
    var risk := RiskContracts(capital, maxRisk, premium);
    var n := TieredSize(capital, maxRisk, premium).value;
    assert n <= risk;
    AffordableFewer(n, risk, premium, capital * maxRisk);
  }

  /** Fewer straddles than an affordable number are affordable too. */
  lemma AffordableFewer(m: int, n: int, price: real, budget: real)
    requires 0 <= m <= n && price > 0.0 && Affordable(n, price, budget)
    ensures Affordable(m, price, budget)
  {
    assert n as real * price == m as real * price + (n - m) as real * price;
  }

  /** With at least the minimum capital the tiered size is 0 exactly when the account is in a
      tier of 10k or more, the budget pays for no straddle and the premium exceeds a tenth of
      the capital. */
  lemma TieredSizeZero(capital: real, maxRisk: real, premium: real)
    requires capital >= MinCapital
    ensures TieredSize(capital, maxRisk, premium) == Ok(0) <==>
      capital >= 10000.0 && premium > capital * 0.10 && !(premium <= 0.0) && premium > capital * maxRisk
  {
    if capital >= 10000.0 {
      TieredSizeAboveTenThousand(capital, maxRisk, premium);
      var risk := RiskContracts(capital, maxRisk, premium);
      if premium > 0.0 {
        assert risk < 1 <==> premium > capital * maxRisk by {
          assert 1 <= risk <==> Affordable(1, premium, capital * maxRisk);
        }
      }
    }
  }

  /** The no-limits `calculate_position_size`: what the risk budget pays for, but never less
      than one contract, at any capital. */
  function NoLimitsSize(capital: real, maxRisk: real, premium: real): (n: int)
    ensures n >= 1
    ensures n >= 2 ==> premium > 0.0 && n as real * premium <= capital * maxRisk
    ensures premium > 0.0 && premium <= capital * maxRisk ==> n == RiskContracts(capital, maxRisk, premium)
  {
    var risk := RiskContracts(capital, maxRisk, premium);
    assert premium > 0.0 && premium <= capital * maxRisk ==> risk >= 1 by {
      if premium > 0.0 && premium <= capital * maxRisk {
        assert Affordable(1, premium, capital * maxRisk);
      }
    }
    MaxInt(1, risk)
  }

  /** Lifting the limits never lowers the size. */
  lemma NoLimitsNeverBelowTiered(capital: real, maxRisk: real, premium: real)
    requires TieredSize(capital, maxRisk, premium).Ok?
    ensures TieredSize(capital, maxRisk, premium).value <= NoLimitsSize(capital, maxRisk, premium)
  {
    if TieredSize(capital, maxRisk, premium).value >= 2 {
      assert TieredSize(capital, maxRisk, premium).value <= RiskContracts(capital, maxRisk, premium);
    }
  }

  // ---------------------------------------------------------------- trade validation

  /** The tiered `validate_trade_risk`: the trade's share of the capital must not exceed the
      risk limit, the capital must be at least ten premiums, and today's P&L must not be below
      minus 5% of the capital. The share is a division by the capital, which raises at 0. */
  function TieredValidation(capital: real, maxRisk: real, dailyPnl: real, contracts: int, premium: real): (r: Result<bool>)
    ensures r.Err? <==> capital == 0.0
    ensures capital > 0.0 ==> (r == Ok(true) <==>
      && contracts as real * premium <= capital * maxRisk
      && premium * 10.0 <= capital
      && dailyPnl >= -(capital * DailyLossFraction))
  {
    if capital == 0.0 then Err(ZeroDivision)
    else
      var riskPct := contracts as real * premium / capital;
      assert capital > 0.0 ==> (riskPct > maxRisk <==> contracts as real * premium > capital * maxRisk) by {
        if capital > 0.0 {
          assert riskPct * capital == contracts as real * premium;
          if riskPct > maxRisk {
            assert riskPct * capital > maxRisk * capital;
          } else {
            assert riskPct * capital <= maxRisk * capital;
          }
        }
      }
      if riskPct > maxRisk then Ok(false)
      else if capital < premium * 10.0 then Ok(false)
      else if dailyPnl < -(capital * DailyLossFraction) then Ok(false)
      else Ok(true)
  }

  /** With a positive premium the tiered sizing can return a contract that the tiered
      validation then rejects: a 5000 account and a 300 premium get one contract (the small-
      account tier), but 300 is 6% of the capital, over the 2% limit. */
  lemma SmallAccountSizeFailsValidation()
    ensures TieredSize(5000.0, DefaultMaxRisk, 300.0) == Ok(1)
    ensures TieredValidation(5000.0, DefaultMaxRisk, 0.0, 1, 300.0) == Ok(false)
  {
  }

  /** Every size of two or more that the tiered sizing returns passes the validation's risk
      check; only the capital and daily-loss checks can still reject it. */
  lemma TieredMultiplePassesRiskCheck(capital: real, maxRisk: real, dailyPnl: real, premium: real)
    requires capital > 0.0
    requires TieredSize(capital, maxRisk, premium).Ok? && TieredSize(capital, maxRisk, premium).value >= 2
    ensures var n := TieredSize(capital, maxRisk, premium).value;
      TieredValidation(capital, maxRisk, dailyPnl, n, premium) == Ok(premium * 10.0 <= capital && dailyPnl >= -(capital * DailyLossFraction))
  {
    TieredSizeWithinBudget(capital, maxRisk, premium);
  }

  // ---------------------------------------------------------------- the manager object

  /** The `__init__` capital when no broker client is given: the configured value, or 100000
      when it is missing or zero (Python's falsy test). */
  function ConfiguredCapital(arg: Option<real>): (c: real)
    ensures c != 0.0
    ensures arg.Some? && arg.value != 0.0 ==> c == arg.value
    ensures arg.None? || arg.value == 0.0 ==> c == DefaultCapital
  {
    if arg.Some? && arg.value != 0.0 then arg.value else DefaultCapital
  }

  /** `get_position_summary`. */
  datatype Summary = Summary(
    initialCapital: real, currentCapital: real, totalReturn: real, dailyPnl: real,
    maxRiskPerTrade: real, maxDailyRisk: real, remainingDailyRisk: real)

  /** The analysis dictionary of `get_recommended_contracts`. */
  datatype Recommendation = Recommendation(
    contracts: int, straddlePremium: real, totalRisk: real, riskPercentage: real,
    isValid: bool, currentCapital: real, dailyPnl: real)

  class PositionManager {
    const policy: SizingPolicy
    const maxRiskPerTrade: real
    var initialCapital: real
    var currentCapital: real
    var dailyPnl: real

    /** The initial capital is never zero, so the divisions by it never raise. */
    predicate Valid()
      reads this
    {
      initialCapital != 0.0
    }

    /** `PositionManager(None, initial_capital, max_risk_per_trade)`. */
    constructor(initialCapital: Option<real>, maxRiskPerTrade: real)
      ensures Valid()
      ensures policy == Tiered && this.maxRiskPerTrade == maxRiskPerTrade
      ensures this.initialCapital == ConfiguredCapital(initialCapital)
      ensures currentCapital == this.initialCapital && dailyPnl == 0.0
    {
      policy := Tiered;
      this.maxRiskPerTrade := maxRiskPerTrade;
      this.initialCapital := ConfiguredCapital(initialCapital);
      currentCapital := ConfiguredCapital(initialCapital);
      dailyPnl := 0.0;
    }

    /** `PositionManagerNoLimits(None, initial_capital)`: the default 2% risk per trade. */
    constructor NoLimits(initialCapital: Option<real>)
      ensures Valid()
      ensures policy == SizingPolicy.NoLimits && maxRiskPerTrade == DefaultMaxRisk
      ensures this.initialCapital == ConfiguredCapital(initialCapital)
      ensures currentCapital == this.initialCapital && dailyPnl == 0.0
    {
      policy := SizingPolicy.NoLimits;
      maxRiskPerTrade := DefaultMaxRisk;
      this.initialCapital := ConfiguredCapital(initialCapital);
      currentCapital := ConfiguredCapital(initialCapital);
      dailyPnl := 0.0;
    }

    /** `calculate_position_size(straddle_premium, spx_price)`; the SPX price is not used. */
    function CalculatePositionSize(premium: real, spxPrice: real): (r: Result<int>)
      reads this
      ensures r.Ok? ==> r.value >= 0
      ensures policy == SizingPolicy.NoLimits ==> r.Ok? && r.value >= 1
      ensures policy == Tiered ==> (r.Err? <==> currentCapital == 0.0)
      ensures r.Ok? && r.value >= 2 ==> r.value as real * premium <= currentCapital * maxRiskPerTrade
    {
      match policy
      case Tiered =>
        var r := TieredSize(currentCapital, maxRiskPerTrade, premium);
        assert r.Ok? && r.value >= 2 ==> r.value as real * premium <= currentCapital * maxRiskPerTrade by {
          if r.Ok? && r.value >= 2 {
            TieredSizeWithinBudget(currentCapital, maxRiskPerTrade, premium);
          }
        }
        r
      case NoLimits => Ok(NoLimitsSize(currentCapital, maxRiskPerTrade, premium))
    }

    /** `validate_trade_risk(contracts, straddle_premium)`: the no-limits variant accepts every
      trade (its log line guards its division). */
    function ValidateTradeRisk(contracts: int, premium: real): (r: Result<bool>)
      reads this
      ensures policy == SizingPolicy.NoLimits ==> r == Ok(true)
      ensures policy == Tiered && r == Ok(true) ==> dailyPnl >= -(currentCapital * DailyLossFraction)
      ensures policy == Tiered ==> (r.Err? <==> currentCapital == 0.0)
    {
      match policy
      case Tiered => TieredValidation(currentCapital, maxRiskPerTrade, dailyPnl, contracts, premium)
      case NoLimits => Ok(true)
    }

    /** `update_capital(pnl)`: the P&L moves both the capital and today's P&L. */
    method UpdateCapital(pnl: real)
      requires Valid()
      modifies this
      ensures Valid()
      ensures currentCapital == old(currentCapital) + pnl && dailyPnl == old(dailyPnl) + pnl
      ensures initialCapital == old(initialCapital)
    {
      currentCapital := currentCapital + pnl;
      dailyPnl := dailyPnl + pnl;
    }

    /** `reset_daily_pnl()`. */
    method ResetDailyPnl()
      requires Valid()
      modifies this
      ensures Valid()
      ensures dailyPnl == 0.0
      ensures currentCapital == old(currentCapital) && initialCapital == old(initialCapital)
    {
      dailyPnl := 0.0;
    }

    /** `get_position_summary()`: the remaining daily risk is what is left of the 5% daily loss
      allowance, and it is negative exactly when the tiered validation's daily-loss check fails. */
    function PositionSummary(): (s: Summary)
      reads this
      requires Valid()
      ensures s.initialCapital == initialCapital && s.currentCapital == currentCapital
      ensures s.dailyPnl == dailyPnl && s.maxRiskPerTrade == maxRiskPerTrade
      ensures s.currentCapital - s.initialCapital == s.totalReturn * s.initialCapital / 100.0
      ensures s.remainingDailyRisk == s.maxDailyRisk + dailyPnl
      ensures s.remainingDailyRisk < 0.0 <==> dailyPnl < -(currentCapital * DailyLossFraction)
      ensures s.maxDailyRisk == currentCapital * DailyLossFraction
    {
      var totalReturn := (currentCapital - initialCapital) / initialCapital * 100.0;
      Summary(initialCapital, currentCapital, totalReturn, dailyPnl, maxRiskPerTrade,
              currentCapital * DailyLossFraction, currentCapital * DailyLossFraction + dailyPnl)
    }

    /** `get_recommended_contracts(straddle_premium, spx_price)`: the size, the validation
      verdict, and the risk as a percentage of the capital, which divides by the capital and
      so raises at a capital of 0 under either policy. */
    function RecommendedContracts(premium: real, spxPrice: real): (r: Result<Recommendation>)
      reads this
      ensures r.Err? <==> currentCapital == 0.0
      ensures r.Ok? ==> CalculatePositionSize(premium, spxPrice) == Ok(r.value.contracts)
      ensures r.Ok? ==> ValidateTradeRisk(r.value.contracts, premium) == Ok(r.value.isValid)
      ensures r.Ok? ==> r.value.totalRisk == r.value.contracts as real * premium
      ensures r.Ok? ==> r.value.riskPercentage * currentCapital == r.value.totalRisk * 100.0
      ensures r.Ok? ==> r.value.straddlePremium == premium
      ensures r.Ok? ==> r.value.currentCapital == currentCapital && r.value.dailyPnl == dailyPnl
    {
      var size := CalculatePositionSize(premium, spxPrice);
      if size.Err? then Err(size.fault)
      // the validation raises only at a capital of 0, where the percentage below raises too
      else if currentCapital == 0.0 then Err(ZeroDivision)
      else
        var valid := ValidateTradeRisk(size.value, premium);
        var totalRisk := size.value as real * premium;
        Ok(Recommendation(size.value, premium, totalRisk, totalRisk / currentCapital * 100.0,
                          valid.value, currentCapital, dailyPnl))
    }
  }

  /** A loss that takes today's P&L past 5% of the remaining capital makes the tiered validation
      refuse every trade until the next `reset_daily_pnl`. */
  lemma DailyLossBlocksTrading(pm: PositionManager, contracts: int, premium: real)
    requires pm.policy == Tiered && pm.currentCapital > 0.0
    requires pm.dailyPnl < -(pm.currentCapital * DailyLossFraction)
    ensures pm.ValidateTradeRisk(contracts, premium) == Ok(false)
  {
  }
}
