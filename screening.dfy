/**
 * The screener object: its investment criteria and the list of results it
 * accumulates, one per ticker whose data was found, and the ranking the
 * final report draws from that list.
 */
module Screening {

  import opened Wrappers
  import opened Metrics
  import opened Scoring
  import opened Investment
  import opened Results
  import opened Ranking

  class Screener {
    var criteria: Criteria
    var results: seq<ScreenResult>

    /** Criteria the scenario can divide by, and only consistent results stored. */
    predicate Valid()
      reads this
    {
      UsableCriteria(criteria) && forall i :: 0 <= i < |results| ==> Consistent(results[i])
    }

    /** A screener with the default criteria and no results yet. */
    constructor ()
      ensures Valid()
      ensures criteria == DefaultCriteria && results == []
    {
      criteria := DefaultCriteria;
      results := [];
    }

    /**
     * Screens one ticker. `data` is what the data source returned for it
     * (`None` when nothing could be fetched) and `mc` the Monte Carlo
     * summary for its position. Nothing is stored without data; otherwise
     * exactly one result is appended and the earlier ones are kept.
     */
    method ScreenStock(ticker: string, data: Option<MetricRecord>, mc: Projection)
      requires Valid()
      modifies this
      ensures Valid()
      ensures criteria == old(criteria)
      ensures data.None? ==> results == old(results)
      ensures data.Some? ==> results == old(results) + [ScreenResultFor(ticker, data.value, criteria, mc)]
    {
      if data.None? {
        return;
      }
      var r := data.value;
      var passes, score, reasons := CalculateScore(data);
      var scenario := NoScenario;
      if passes && Truthy(r.currentPrice) {
        scenario := CalculateInvestmentScenario(data, criteria, mc);
      }
      var result := ScreenResult(
        ticker, r.companyName, r.sector, r.currentPrice, r.peRatio, r.roe, r.debtToEquity,
        r.revenueGrowth, r.marketCap, score, passes, reasons, scenario);
      assert result == ScreenResultFor(ticker, r, criteria, mc);
      results := results + [result];
    }

    /**
     * The ranking behind the final report: how many results passed and
     * failed, the best five passed and the best three failed, each list
     * sorted by score from highest to lowest with ties in screening order.
     * Every shown passed ticker scores at least 60 and every shown failed
     * one has a reason on record.
     */
    method Rank() returns (passedCount: nat, failedCount: nat, topPassed: seq<ScreenResult>, topFailed: seq<ScreenResult>)
      requires Valid()
      ensures passedCount + failedCount == |results|
      ensures passedCount == |Selected(results, true)| && failedCount == |Selected(results, false)|
      ensures topPassed == Ranked(results, true, TopPassedCount)
      ensures topFailed == Ranked(results, false, TopFailedCount)
      ensures forall t :: t in topPassed ==> t.passes && t.score >= 60
      ensures forall t :: t in topFailed ==> !t.passes && t.reasons != []
    {
      var passed := Selected(results, true);
      var failed := Selected(results, false);
      PartitionIsExact(results);
      passedCount, failedCount := |passed|, |failed|;
      passed := SortedCopy(passed);
      failed := SortedCopy(failed);
      topPassed := Top(passed, TopPassedCount);
      topFailed := Top(failed, TopFailedCount);
      ShownAreConsistent(results, true, TopPassedCount);
      ShownAreConsistent(results, false, TopFailedCount);
    }
  }

  /** Every ticker the report shows is a stored result, so it is consistent and carries the part's flag. */
  lemma ShownAreConsistent(rs: seq<ScreenResult>, passes: bool, n: nat)
    requires forall i :: 0 <= i < |rs| ==> Consistent(rs[i])
    ensures forall t :: t in Ranked(rs, passes, n) ==> t.passes == passes && Consistent(t)
  {
    var top := Ranked(rs, passes, n);
    forall t | t in top
      ensures t.passes == passes && Consistent(t)
    {
      var i :| 0 <= i < |top| && top[i] == t;
      assert t in rs;
      var j :| 0 <= j < |rs| && rs[j] == t;
      assert Consistent(rs[j]);
    }
  }

  /** A sorted copy of `s`, made by sorting an array in place. */
  method SortedCopy(s: seq<ScreenResult>) returns (t: seq<ScreenResult>)
    ensures t == SortByScore(s)
  {
    var a := new ScreenResult[|s|](i requires 0 <= i < |s| => s[i]);
    assert a[..] == s;
    SortByScoreDescending(a);
    t := a[..];
  }
}
