/**
 * One screened ticker as the screener stores it: the record's identity and
 * fundamentals, the scorer's verdict and the investment plan (empty unless
 * the ticker passed with a current price).
 */
module Results {

  import opened Wrappers
  import opened Metrics
  import opened Scoring
  import opened Investment

  datatype ScreenResult = ScreenResult(
    ticker: string,
    companyName: string,
    sector: string,
    currentPrice: Option<real>,
    peRatio: Option<real>,
    roe: Option<real>,
    debtToEquity: Option<real>,
    revenueGrowth: Option<real>,
    marketCap: Option<real>,
    score: int,
    passes: bool,
    reasons: seq<Reason>,
    investmentScenario: InvestmentScenario)

  /**
   * What every stored result satisfies: a score out of 100, a pass only at
   * 60 or more, at least one reason for a failure, and a plan only for a
   * passing ticker with a price.
   */
  predicate Consistent(res: ScreenResult)
  {
    && 0 <= res.score <= 100
    && (res.passes ==> res.score >= 60)
    && (!res.passes ==> res.reasons != [])
    && (res.investmentScenario.Scenario? ==> res.passes && Truthy(res.currentPrice))
  }

  /**
   * The result stored for a ticker whose record was found. It repeats the
   * record's fields, carries the scorer's verdict unchanged, and holds a plan
   * exactly when the ticker passes and its price is present and nonzero;
   * that plan is the scenario for the record under the screener's criteria.
   */
  function ScreenResultFor(ticker: string, r: MetricRecord, criteria: Criteria, mc: Projection): (res: ScreenResult)
    requires UsableCriteria(criteria)
    ensures res.ticker == ticker && res.companyName == r.companyName && res.sector == r.sector
    ensures res.currentPrice == r.currentPrice && res.peRatio == r.peRatio && res.roe == r.roe
    ensures res.debtToEquity == r.debtToEquity && res.revenueGrowth == r.revenueGrowth
    ensures res.marketCap == r.marketCap
    ensures res.score == Score(Some(r)).score && res.passes == Score(Some(r)).passes
    ensures res.reasons == Score(Some(r)).reasons
    ensures Consistent(res)
    ensures res.investmentScenario.Scenario? <==> res.passes && Truthy(r.currentPrice)
    ensures res.investmentScenario.Scenario? ==>
              res.investmentScenario == CalculateInvestmentScenario(Some(r), criteria, mc)
  {
    var verdict := Score(Some(r));
    var scenario :=
      if verdict.passes && Truthy(r.currentPrice) then CalculateInvestmentScenario(Some(r), criteria, mc)
      else NoScenario;
    ScreenResult(
      ticker, r.companyName, r.sector, r.currentPrice, r.peRatio, r.roe, r.debtToEquity,
      r.revenueGrowth, r.marketCap, verdict.score, verdict.passes, verdict.reasons, scenario)
  }
}
