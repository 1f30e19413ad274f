/**
 * The per-ticker metric record that the market-data collaborator hands to the
 * screener, and the Python truthiness test the scorer applies to its fields.
 */
module Metrics {

  import opened Wrappers

  /**
   * One ticker's snapshot. Every numeric field may be missing (`None`); the
   * string fields are carried into the screening result for display only.
   */
  datatype MetricRecord = MetricRecord(
    companyName: string,
    sector: string,
    peRatio: Option<real>,
    roe: Option<real>,
    debtToEquity: Option<real>,
    revenueGrowth: Option<real>,
    marketCap: Option<real>,
    currentPrice: Option<real>,
    price50Sma: Option<real>,
    volumeAvg: Option<real>,
    volumeRecent: Option<real>)

  /** `if x:` on an optional number: `None` and `0` are both false. */
  predicate Truthy(x: Option<real>)
  {
    x.Some? && x.value != 0.0
  }
}
