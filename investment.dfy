/**
 * The fixed-budget investment plan built for a passing ticker: position
 * size, stop-loss and take-profit levels, risk, three fixed-rate projections
 * and the Monte Carlo summary, over exact reals (no rounding to cents).
 */
module Investment {

  import opened Wrappers
  import opened Metrics

  /** The investment parameters of the screener's criteria. */
  datatype Criteria = Criteria(investmentAmount: real, stopLossPercentage: real, takeProfitPercentage: real)

  /** The screener's defaults: $1000, an 8% stop loss and a 20% take profit. */
  const DefaultCriteria: Criteria := Criteria(1000.0, 0.08, 0.20)

  /** The scenario divides by the stop-loss percentage, so it must not be zero. */
  predicate UsableCriteria(c: Criteria)
  {
    c.stopLossPercentage != 0.0
  }

  /** Summary of the simulated value distribution after one year. */
  datatype Projection = Projection(average: real, bestCase: real, worstCase: real, probabilityProfit: real)

  /** The plan for one ticker; `NoScenario` is the screener's empty result. */
  datatype InvestmentScenario =
    | NoScenario
    | Scenario(
        investmentAmount: real,
        currentPrice: real,
        shares: real,
        totalCost: real,
        stopLossPrice: real,
        takeProfitPrice: real,
        riskPerShare: real,
        totalRisk: real,
        riskRewardRatio: real,
        conservativeValue: real,
        moderateValue: real,
        aggressiveValue: real,
        mcAverage: real,
        mcBestCase: real,
        mcWorstCase: real,
        mcProbabilityProfit: real)

  /** The fixed annual returns of the three deterministic projections. */
  const ConservativeReturn: real := 0.08
  const ModerateReturn: real := 0.15
  const AggressiveReturn: real := 0.25

  /**
   * The plan for a record, given the Monte Carlo summary computed for it.
   * Empty when the record or its price is missing; otherwise the position
   * costs exactly the budget, the stop loss risks exactly the stop-loss
   * share of it, and the three projections grow in rate order.
   */
  function CalculateInvestmentScenario(data: Option<MetricRecord>, criteria: Criteria, mc: Projection): (s: InvestmentScenario)
    requires data.Some? && data.value.currentPrice.Some? ==>
               data.value.currentPrice.value != 0.0 && UsableCriteria(criteria)
    ensures s.NoScenario? <==> data.None? || data.value.currentPrice.None?
    ensures s.Scenario? ==>
              s.currentPrice == data.value.currentPrice.value && s.investmentAmount == criteria.investmentAmount
    ensures s.Scenario? ==> s.shares * s.currentPrice == s.investmentAmount && s.totalCost == s.investmentAmount
    ensures s.Scenario? ==>
              s.riskPerShare == s.currentPrice * criteria.stopLossPercentage
              && s.stopLossPrice == s.currentPrice - s.riskPerShare
              && s.takeProfitPrice - s.currentPrice == s.currentPrice * criteria.takeProfitPercentage
    ensures s.Scenario? ==> s.totalRisk == s.investmentAmount * criteria.stopLossPercentage
    ensures s.Scenario? && s.currentPrice > 0.0 && 0.0 < criteria.stopLossPercentage < 1.0
            && criteria.takeProfitPercentage > 0.0 ==>
              0.0 < s.stopLossPrice < s.currentPrice < s.takeProfitPrice && s.riskRewardRatio > 0.0
    ensures s.Scenario? ==> s.riskRewardRatio * criteria.stopLossPercentage == criteria.takeProfitPercentage
    ensures s.Scenario? ==>
              s.conservativeValue == s.investmentAmount * 1.08
              && s.moderateValue == s.investmentAmount * 1.15
              && s.aggressiveValue == s.investmentAmount * 1.25
    ensures s.Scenario? ==>
              s.mcAverage == mc.average && s.mcBestCase == mc.bestCase
              && s.mcWorstCase == mc.worstCase && s.mcProbabilityProfit == mc.probabilityProfit
  {
    if data.None? || data.value.currentPrice.None? then
      NoScenario
    else
      var currentPrice := data.value.currentPrice.value;
      var investment := criteria.investmentAmount;
      var stopLossPct := criteria.stopLossPercentage;
      var takeProfitPct := criteria.takeProfitPercentage;

      var shares := investment / currentPrice;
      var totalCost := shares * currentPrice;

      var stopLossPrice := StopLossLevel(currentPrice, stopLossPct);
      var takeProfitPrice := TakeProfitLevel(currentPrice, takeProfitPct);
      var riskPerShare := currentPrice - stopLossPrice;
      var totalRisk := riskPerShare * shares;
      PositionArithmetic(investment, currentPrice, stopLossPct);

      Scenario(
        investment, currentPrice, shares, totalCost, stopLossPrice, takeProfitPrice,
        riskPerShare, totalRisk, RiskRewardRatio(takeProfitPct, stopLossPct),
        totalCost * (1.0 + ConservativeReturn),
        totalCost * (1.0 + ModerateReturn),
        totalCost * (1.0 + AggressiveReturn),
        mc.average, mc.bestCase, mc.worstCase, mc.probabilityProfit)
  }

  /** The stop-loss level: the price less the stop-loss share of it; inside (0, price) for a stop loss in (0, 1). */
  function StopLossLevel(price: real, sl: real): (level: real)
    ensures price - level == price * sl
    ensures price > 0.0 && 0.0 < sl < 1.0 ==> 0.0 < level < price
  {
    var level := price * (1.0 - sl);
    assert price - level == price * sl;
    assert price > 0.0 && 0.0 < sl < 1.0 ==> 0.0 < price * sl < price * 1.0;
    level
  }

  /** The take-profit level: the price plus the take-profit share of it; above the price for a positive share. */
  function TakeProfitLevel(price: real, tp: real): (level: real)
    ensures level - price == price * tp
    ensures price > 0.0 && tp > 0.0 ==> level > price
  {
    var level := price * (1.0 + tp);
    assert level - price == price * tp;
    assert price > 0.0 && tp > 0.0 ==> price * tp > 0.0;
    level
  }

  /** Reward per unit of risk: the take-profit share over the stop-loss share. */
  function RiskRewardRatio(tp: real, sl: real): (ratio: real)
    requires sl != 0.0
    ensures ratio * sl == tp
    ensures sl > 0.0 && tp > 0.0 ==> ratio > 0.0
  {
    tp / sl
  }

  /** Buying `investment / price` shares costs the investment; the stop loss risks `investment * sl`. */
  lemma PositionArithmetic(investment: real, price: real, sl: real)
    requires price != 0.0
    ensures (investment / price) * price == investment
    ensures (price * sl) * (investment / price) == investment * sl
  {
    var shares := investment / price;
    assert shares * price == investment;
    calc {
      (price * sl) * shares;
      == sl * (shares * price);
      == sl * investment;
    }
  }

  /** For a positive budget the three projections are strictly increasing and all above it. */
  lemma ProjectionsIncrease(data: Option<MetricRecord>, criteria: Criteria, mc: Projection)
    requires data.Some? && data.value.currentPrice.Some? && data.value.currentPrice.value != 0.0
    requires UsableCriteria(criteria) && criteria.investmentAmount > 0.0
    ensures var s := CalculateInvestmentScenario(data, criteria, mc);
            s.Scenario? && s.investmentAmount < s.conservativeValue < s.moderateValue < s.aggressiveValue
  {
  }

  /** The default criteria at a $100 price: ten shares, levels at $92 and $120, $80 at risk. */
  lemma DefaultPlanAtHundred(data: Option<MetricRecord>, mc: Projection)
    requires data.Some? && data.value.currentPrice == Some(100.0)
    ensures var s := CalculateInvestmentScenario(data, DefaultCriteria, mc);
            s.Scenario? && s.shares == 10.0 && s.stopLossPrice == 92.0 && s.takeProfitPrice == 120.0
            && s.totalRisk == 80.0 && s.riskRewardRatio == 2.5
            && s.conservativeValue == 1080.0 && s.moderateValue == 1150.0 && s.aggressiveValue == 1250.0
  {
  }

  // ---------------------------------------------------------------------------
  // The Monte Carlo summary: only its deterministic parts
  // ---------------------------------------------------------------------------

  /** The value a trial must exceed to count as a profit: a fixed $1000. */
  const ProfitThreshold: real := 1000.0

  /** How many of the values lie strictly above the threshold. */
  function CountAbove(values: seq<real>, threshold: real): (n: nat)
    ensures n <= |values|
    ensures n == 0 <==> forall i :: 0 <= i < |values| ==> values[i] <= threshold
    ensures n == |values| <==> forall i :: 0 <= i < |values| ==> values[i] > threshold
  {
    if values == [] then 0
    else (if values[0] > threshold then 1 else 0) + CountAbove(values[1..], threshold)
  }

  /**
   * The share of simulated final values above $1000: a fraction in [0, 1],
   * zero exactly when no trial ends above $1000 and one exactly when all do.
   * An empty list of trials never reaches this division: the summary fails
   * first and the fallback is used.
   */
  function ProbabilityProfit(finalValues: seq<real>): (p: real)
    requires finalValues != []
    ensures 0.0 <= p <= 1.0
    ensures p == 0.0 <==> forall i :: 0 <= i < |finalValues| ==> finalValues[i] <= ProfitThreshold
    ensures p == 1.0 <==> forall i :: 0 <= i < |finalValues| ==> finalValues[i] > ProfitThreshold
  {
    var n := CountAbove(finalValues, ProfitThreshold);
    var len := |finalValues|;
    FractionBounds(n, len);
    (n as real) / (len as real)
  }

  /** A count out of a positive total, as a fraction: in [0, 1], 0 only for none and 1 only for all. */
  lemma FractionBounds(n: nat, len: nat)
    requires 0 < len && n <= len
    ensures 0.0 <= (n as real) / (len as real) <= 1.0
    ensures (n as real) / (len as real) == 0.0 <==> n == 0
    ensures (n as real) / (len as real) == 1.0 <==> n == len
  {
    var f := (n as real) / (len as real);
    assert f * (len as real) == n as real;
    assert f > 1.0 ==> f * (len as real) > 1.0 * (len as real);
    assert f < 0.0 ==> f * (len as real) < 0.0;
    assert f == 1.0 ==> n as real == 1.0 * (len as real);
    assert f == 0.0 ==> n as real == 0.0 * (len as real);
    assert n == len ==> f == (len as real) / (len as real) == 1.0;
  }

  /**
   * The summary used when the simulation fails: fixed figures for a $1000
   * position, whatever the shares or budget. Worst case below average below
   * best case, and a probability in [0, 1].
   */
  function FallbackProjection(): (p: Projection)
    ensures p.worstCase < p.average < p.bestCase
    ensures 0.0 <= p.probabilityProfit <= 1.0
    ensures p.average == ProfitThreshold * 1.15
  {
    Projection(1000.0 * 1.15, 1000.0 * 1.3, 1000.0 * 0.85, 0.65)
  }
}
