/**
 * The screening score: six factors, each a cascade of threshold tiers, turn a
 * metric record into `(passes, score, reasons)`.
 *
 * The tier cascades are written twice: once per factor as a verdict function
 * (the rule table the result is specified by), and once as the step-by-step
 * method `CalculateScore`, which keeps running point totals, a growing reason
 * list and a `passes` flag the way the screener does, and is proved equal to
 * the specification.
 */
module Scoring {

  import opened Wrappers
  import opened Metrics

  /**
   * Why a ticker lost points or failed. Reasons that the screener formats
   * with a number carry that number unformatted.
   */
  datatype Reason =
    | NoDataAvailable
    | HighPE(pe: real)
    | NoPEData
    | LowROE(roe: real)
    | NoROEData
    | HighDebtEquity(debtToEquity: real)
    | LowRevenueGrowth(growth: real)
    | PriceBelowSma(ratio: real)
    | NoTechnicalData
    | LowOverallScore(total: int)
  {
    /** Position, in evaluation order, of the step that emits this reason. */
    function Stage(): nat
    {
      match this
      case NoDataAvailable => 0
      case HighPE(_) => 1
      case NoPEData => 1
      case LowROE(_) => 2
      case NoROEData => 2
      case HighDebtEquity(_) => 3
      case LowRevenueGrowth(_) => 4
      case PriceBelowSma(_) => 5
      case NoTechnicalData => 5
      case LowOverallScore(_) => 6
    }
  }

  /** The scorer's answer for one ticker. */
  datatype ScoreResult = ScoreResult(passes: bool, score: int, reasons: seq<Reason>)

  /** What one factor's tier cascade decides. */
  datatype Verdict =
    | Award(points: nat)          // a tier was reached
    | Note(reason: Reason)        // no points, and a reason is recorded
    | Disqualify(reason: Reason)  // no points, a reason, and the ticker fails
    | Silent                      // no points and nothing recorded
  {
    function Points(): nat
    {
      if Award? then points else 0
    }

    /** The reason list after this verdict's step: one reason appended, or none. */
    function AppendTo(rs: seq<Reason>): seq<Reason>
    {
      if Note? || Disqualify? then rs + [reason] else rs
    }
  }

  /** Reasons listed in evaluation order, at most one per step. */
  predicate Chronological(rs: seq<Reason>)
  {
    forall i, j :: 0 <= i < j < |rs| ==> rs[i].Stage() < rs[j].Stage()
  }

  // ---------------------------------------------------------------------------
  // The six factors
  // ---------------------------------------------------------------------------

  /** P/E ratio: only a truthy, positive P/E is scored; above 35 disqualifies. */
  function PeVerdict(pe: Option<real>): (v: Verdict)
    ensures v.Points() in {0, 10, 15, 20}
    ensures v.Award? <==> Truthy(pe) && 0.0 < pe.value <= 35.0
    ensures v == Note(NoPEData) <==> !(Truthy(pe) && pe.value > 0.0)
    ensures v.Disqualify? <==> Truthy(pe) && pe.value > 35.0
    ensures v.Disqualify? ==> v.reason == HighPE(pe.value)
    ensures v.Note? || v.Disqualify? ==> v.reason.Stage() == 1
  {
    if Truthy(pe) && pe.value > 0.0 then
      if pe.value <= 15.0 then Award(20)
      else if pe.value <= 25.0 then Award(15)
      else if pe.value <= 35.0 then Award(10)
      else Disqualify(HighPE(pe.value))
    else
      Note(NoPEData)
  }

  /** Return on equity: a truthy ROE below 0.10 disqualifies. */
  function RoeVerdict(roe: Option<real>): (v: Verdict)
    ensures v.Points() in {0, 10, 15, 20}
    ensures v.Award? <==> Truthy(roe) && roe.value >= 0.10
    ensures v == Note(NoROEData) <==> !Truthy(roe)
    ensures v.Disqualify? <==> Truthy(roe) && roe.value < 0.10
    ensures v.Disqualify? ==> v.reason == LowROE(roe.value)
    ensures v.Note? || v.Disqualify? ==> v.reason.Stage() == 2
  {
    if Truthy(roe) then
      if roe.value >= 0.20 then Award(20)
      else if roe.value >= 0.15 then Award(15)
      else if roe.value >= 0.10 then Award(10)
      else Disqualify(LowROE(roe.value))
    else
      Note(NoROEData)
  }

  /** Debt to equity: a truthy ratio above 0.7 disqualifies; a missing one is silent. */
  function DebtEquityVerdict(de: Option<real>): (v: Verdict)
    ensures v.Points() in {0, 5, 10, 15}
    ensures v.Award? <==> Truthy(de) && de.value <= 0.7
    ensures v.Silent? <==> !Truthy(de)
    ensures v.Disqualify? <==> Truthy(de) && de.value > 0.7
    ensures v.Disqualify? ==> v.reason == HighDebtEquity(de.value)
    ensures !v.Note?
    ensures v.Note? || v.Disqualify? ==> v.reason.Stage() == 3
  {
    if Truthy(de) then
      if de.value <= 0.3 then Award(15)
      else if de.value <= 0.5 then Award(10)
      else if de.value <= 0.7 then Award(5)
      else Disqualify(HighDebtEquity(de.value))
    else
      Silent
  }

  /** Revenue growth: never disqualifies; growth below 0.05 is noted, a missing one is silent. */
  function RevenueGrowthVerdict(growth: Option<real>): (v: Verdict)
    ensures v.Points() in {0, 8, 12, 15}
    ensures v.Award? <==> Truthy(growth) && growth.value >= 0.05
    ensures v.Silent? <==> !Truthy(growth)
    ensures v.Note? <==> Truthy(growth) && growth.value < 0.05
    ensures v.Note? ==> v.reason == LowRevenueGrowth(growth.value)
    ensures !v.Disqualify?
    ensures v.Note? || v.Disqualify? ==> v.reason.Stage() == 4
  {
    if Truthy(growth) then
      if growth.value >= 0.15 then Award(15)
      else if growth.value >= 0.10 then Award(12)
      else if growth.value >= 0.05 then Award(8)
      else Note(LowRevenueGrowth(growth.value))
    else
      Silent
  }

  /** Current price against the 50-day moving average: scored only when both are truthy. */
  function PriceSmaVerdict(price: Option<real>, sma: Option<real>): (v: Verdict)
    ensures v.Points() in {0, 5, 10, 15}
    ensures v == Note(NoTechnicalData) <==> !(Truthy(sma) && Truthy(price))
    ensures v.Award? <==> Truthy(sma) && Truthy(price) && price.value / sma.value >= 0.90
    ensures v.Note? && v != Note(NoTechnicalData) <==>
              Truthy(sma) && Truthy(price) && price.value / sma.value < 0.90
    ensures v.Note? && v != Note(NoTechnicalData) ==> v.reason == PriceBelowSma(price.value / sma.value)
    ensures !v.Disqualify?
    ensures v.Note? || v.Disqualify? ==> v.reason.Stage() == 5
  {
    if Truthy(sma) && Truthy(price) then
      var ratio := price.value / sma.value;
      if ratio >= 1.0 then Award(15)
      else if ratio >= 0.95 then Award(10)
      else if ratio >= 0.90 then Award(5)
      else Note(PriceBelowSma(ratio))
    else
      Note(NoTechnicalData)
  }

  /** Recent (10-day) against average (50-day) volume: never records a reason. */
  function VolumeVerdict(avg: Option<real>, recent: Option<real>): (v: Verdict)
    ensures v.Points() in {0, 5, 10, 15}
    ensures v.Award? <==>
              Truthy(avg) && Truthy(recent) && avg.value > 0.0 && recent.value / avg.value >= 0.5
    ensures v.Award? || v.Silent?
  {
    if Truthy(avg) && Truthy(recent) && avg.value > 0.0 then
      var ratio := recent.value / avg.value;
      if ratio >= 1.2 then Award(15)
      else if ratio >= 0.8 then Award(10)
      else if ratio >= 0.5 then Award(5)
      else Silent
    else
      Silent
  }

  // ---------------------------------------------------------------------------
  // The whole score
  // ---------------------------------------------------------------------------

  /** Points from P/E, ROE, debt/equity and revenue growth. */
  function FundamentalPoints(r: MetricRecord): (p: nat)
    ensures p <= 70
  {
    PeVerdict(r.peRatio).Points() + RoeVerdict(r.roe).Points()
    + DebtEquityVerdict(r.debtToEquity).Points() + RevenueGrowthVerdict(r.revenueGrowth).Points()
  }

  /** Points from price against its moving average and from volume. */
  function TechnicalPoints(r: MetricRecord): (p: nat)
    ensures p <= 30
  {
    PriceSmaVerdict(r.currentPrice, r.price50Sma).Points()
    + VolumeVerdict(r.volumeAvg, r.volumeRecent).Points()
  }

  /** The reasons the factors record, in evaluation order. */
  function FactorReasons(r: MetricRecord): seq<Reason>
  {
    var afterPe := PeVerdict(r.peRatio).AppendTo([]);
    var afterRoe := RoeVerdict(r.roe).AppendTo(afterPe);
    var afterDebt := DebtEquityVerdict(r.debtToEquity).AppendTo(afterRoe);
    var afterGrowth := RevenueGrowthVerdict(r.revenueGrowth).AppendTo(afterDebt);
    PriceSmaVerdict(r.currentPrice, r.price50Sma).AppendTo(afterGrowth)
  }

  /** The three hard disqualifiers, stated on the raw field values. */
  predicate HardDisqualified(r: MetricRecord)
  {
    (Truthy(r.peRatio) && r.peRatio.value > 0.0 && r.peRatio.value > 35.0)
    || (Truthy(r.roe) && r.roe.value < 0.10)
    || (Truthy(r.debtToEquity) && r.debtToEquity.value > 0.7)
  }

  /**
   * The score of a record, or of an absent record. A ticker passes exactly
   * when it reaches 60 points and no hard disqualifier fired; the low-score
   * reason comes last and only below 60; a failing ticker always has a reason.
   */
  function Score(data: Option<MetricRecord>): (res: ScoreResult)
    ensures data.None? ==> res == ScoreResult(false, 0, [NoDataAvailable])
    ensures 0 <= res.score <= 100
    ensures data.Some? ==> res.score == FundamentalPoints(data.value) + TechnicalPoints(data.value)
    ensures data.Some? ==>
              res.reasons == FactorReasons(data.value) + (if res.score < 60 then [LowOverallScore(res.score)] else [])
    ensures data.Some? ==> (res.passes <==> res.score >= 60 && !HardDisqualified(data.value))
    ensures data.Some? ==>
              (res.score < 60 <==> res.reasons != [] && res.reasons[|res.reasons| - 1] == LowOverallScore(res.score))
    ensures data.Some? ==> Chronological(res.reasons) && NoDataAvailable !in res.reasons
    ensures !res.passes ==> res.reasons != []
  {
    match data
    case None => ScoreResult(false, 0, [NoDataAvailable])
    case Some(r) =>
      ScoreFacts(r);
      RecordScore(r)
  }

  /** The score of a present record, composed from the six verdicts. */
  function RecordScore(r: MetricRecord): ScoreResult
  {
    var total := FundamentalPoints(r) + TechnicalPoints(r);
    var disqualified :=
      PeVerdict(r.peRatio).Disqualify? || RoeVerdict(r.roe).Disqualify?
      || DebtEquityVerdict(r.debtToEquity).Disqualify?;
    var reasons := FactorReasons(r);
    ScoreResult(total >= 60 && !disqualified, total,
                if total < 60 then reasons + [LowOverallScore(total)] else reasons)
  }

  /** The facts behind the contract of `Score`, for a present record. */
  lemma ScoreFacts(r: MetricRecord)
    ensures var res := RecordScore(r);
            ((PeVerdict(r.peRatio).Disqualify? || RoeVerdict(r.roe).Disqualify?
              || DebtEquityVerdict(r.debtToEquity).Disqualify?) <==> HardDisqualified(r))
            && (res.score < 60 <==> res.reasons != [] && res.reasons[|res.reasons| - 1] == LowOverallScore(res.score))
            && Chronological(res.reasons) && NoDataAvailable !in res.reasons
            && (!res.passes ==> res.reasons != [])
  {
    var fs := FactorReasons(r);
    FactorReasonsInOrder(r);
    var total := FundamentalPoints(r) + TechnicalPoints(r);
    if total < 60 {
      AppendLaterStage(fs, Note(LowOverallScore(total)), 5, 6);
    } else if fs != [] {
      assert fs[|fs| - 1] in fs;
    }
  }

  /** The factor reasons are in evaluation order, and a disqualifier always leaves one. */
  lemma FactorReasonsInOrder(r: MetricRecord)
    ensures Chronological(FactorReasons(r))
    ensures forall x <- FactorReasons(r) :: 1 <= x.Stage() <= 5
    ensures (PeVerdict(r.peRatio).Disqualify? || RoeVerdict(r.roe).Disqualify?
             || DebtEquityVerdict(r.debtToEquity).Disqualify?) ==> FactorReasons(r) != []
  {
    var pe, roe, de := PeVerdict(r.peRatio), RoeVerdict(r.roe), DebtEquityVerdict(r.debtToEquity);
    var growth, sma := RevenueGrowthVerdict(r.revenueGrowth), PriceSmaVerdict(r.currentPrice, r.price50Sma);
    AppendLaterStage([], pe, 0, 1);
    var afterPe := pe.AppendTo([]);
    AppendLaterStage(afterPe, roe, 1, 2);
    var afterRoe := roe.AppendTo(afterPe);
    AppendLaterStage(afterRoe, de, 2, 3);
    var afterDebt := de.AppendTo(afterRoe);
    AppendLaterStage(afterDebt, growth, 3, 4);
    var afterGrowth := growth.AppendTo(afterDebt);
    AppendLaterStage(afterGrowth, sma, 4, 5);
  }

  /**
   * A verdict whose reason belongs to a later step keeps the list in
   * evaluation order, and never removes a reason.
   */
  lemma AppendLaterStage(rs: seq<Reason>, v: Verdict, upTo: nat, stage: nat)
    requires Chronological(rs) && forall x <- rs :: 1 <= x.Stage() <= upTo
    requires upTo < stage && (v.Note? || v.Disqualify? ==> v.reason.Stage() == stage)
    ensures Chronological(v.AppendTo(rs)) && forall x <- v.AppendTo(rs) :: 1 <= x.Stage() <= stage
    ensures |v.AppendTo(rs)| >= |rs| && (v.Disqualify? ==> v.AppendTo(rs) != [])
  {
    var out := v.AppendTo(rs);
    forall i, j | 0 <= i < j < |out|
      ensures out[i].Stage() < out[j].Stage()
    {
      if j >= |rs| {
        assert out[i] in rs;
      }
    }
  }

  // ---------------------------------------------------------------------------
  // The scorer, step by step
  // ---------------------------------------------------------------------------

  /**
   * The screener's scoring: running fundamental and technical totals, a
   * reason list that grows by appends, and a `passes` flag that any
   * disqualifier or a low total switches off. Each factor's block is one
   * step below; the steps update the running state in evaluation order.
   */
  method CalculateScore(data: Option<MetricRecord>) returns (passes: bool, score: int, reasons: seq<Reason>)
    ensures passes == Score(data).passes
    ensures score == Score(data).score
    ensures reasons == Score(data).reasons
  {
    if data.None? {
      return false, 0, [NoDataAvailable];
    }
    var d := data.value;
    reasons := [];
    passes := true;

    var fundamentalScore := 0;
    fundamentalScore, reasons, passes := PeStep(d.peRatio, fundamentalScore, reasons, passes);
    fundamentalScore, reasons, passes := RoeStep(d.roe, fundamentalScore, reasons, passes);
    fundamentalScore, reasons, passes := DebtEquityStep(d.debtToEquity, fundamentalScore, reasons, passes);
    fundamentalScore, reasons := RevenueGrowthStep(d.revenueGrowth, fundamentalScore, reasons);

    var technicalScore := 0;
    technicalScore, reasons := PriceSmaStep(d.currentPrice, d.price50Sma, technicalScore, reasons);
    technicalScore := VolumeStep(d.volumeAvg, d.volumeRecent, technicalScore);

    score := fundamentalScore + technicalScore;
    if score < 60 {
      passes := false;
      reasons := reasons + [LowOverallScore(score)];
    }
    assert Score(data) == RecordScore(d);
  }

  /** The P/E block: adds its tier's points, or records why not and may fail the ticker. */
  method PeStep(pe: Option<real>, fundamentalScore: int, reasons: seq<Reason>, passes: bool)
    returns (fundamentalScore': int, reasons': seq<Reason>, passes': bool)
    ensures fundamentalScore' == fundamentalScore + PeVerdict(pe).Points()
    ensures reasons' == PeVerdict(pe).AppendTo(reasons)
    ensures passes' == (passes && !PeVerdict(pe).Disqualify?)
  {
    fundamentalScore', reasons', passes' := fundamentalScore, reasons, passes;
    if Truthy(pe) && pe.value > 0.0 {
      if pe.value <= 15.0 {
        fundamentalScore' := fundamentalScore' + 20;
      } else if pe.value <= 25.0 {
        fundamentalScore' := fundamentalScore' + 15;
      } else if pe.value <= 35.0 {
        fundamentalScore' := fundamentalScore' + 10;
      } else {
        reasons' := reasons' + [HighPE(pe.value)];
        passes' := false;
      }
    } else {
      reasons' := reasons' + [NoPEData];
    }
  }

  /** The ROE block: adds its tier's points, or records why not and may fail the ticker. */
  method RoeStep(roe: Option<real>, fundamentalScore: int, reasons: seq<Reason>, passes: bool)
    returns (fundamentalScore': int, reasons': seq<Reason>, passes': bool)
    ensures fundamentalScore' == fundamentalScore + RoeVerdict(roe).Points()
    ensures reasons' == RoeVerdict(roe).AppendTo(reasons)
    ensures passes' == (passes && !RoeVerdict(roe).Disqualify?)
  {
    fundamentalScore', reasons', passes' := fundamentalScore, reasons, passes;
    if Truthy(roe) {
      if roe.value >= 0.20 {
        fundamentalScore' := fundamentalScore' + 20;
      } else if roe.value >= 0.15 {
        fundamentalScore' := fundamentalScore' + 15;
      } else if roe.value >= 0.10 {
        fundamentalScore' := fundamentalScore' + 10;
      } else {
        reasons' := reasons' + [LowROE(roe.value)];
        passes' := false;
      }
    } else {
      reasons' := reasons' + [NoROEData];
    }
  }

  /** The debt-to-equity block: adds its tier's points, or fails the ticker; silent when missing. */
  method DebtEquityStep(de: Option<real>, fundamentalScore: int, reasons: seq<Reason>, passes: bool)
    returns (fundamentalScore': int, reasons': seq<Reason>, passes': bool)
    ensures fundamentalScore' == fundamentalScore + DebtEquityVerdict(de).Points()
    ensures reasons' == DebtEquityVerdict(de).AppendTo(reasons)
    ensures passes' == (passes && !DebtEquityVerdict(de).Disqualify?)
  {
    fundamentalScore', reasons', passes' := fundamentalScore, reasons, passes;
    if Truthy(de) {
      if de.value <= 0.3 {
        fundamentalScore' := fundamentalScore' + 15;
      } else if de.value <= 0.5 {
        fundamentalScore' := fundamentalScore' + 10;
      } else if de.value <= 0.7 {
        fundamentalScore' := fundamentalScore' + 5;
      } else {
        reasons' := reasons' + [HighDebtEquity(de.value)];
        passes' := false;
      }
    }
  }

  /** The revenue-growth block: adds its tier's points or notes low growth; silent when missing. */
  method RevenueGrowthStep(growth: Option<real>, fundamentalScore: int, reasons: seq<Reason>)
    returns (fundamentalScore': int, reasons': seq<Reason>)
    ensures fundamentalScore' == fundamentalScore + RevenueGrowthVerdict(growth).Points()
    ensures reasons' == RevenueGrowthVerdict(growth).AppendTo(reasons)
  {
    fundamentalScore', reasons' := fundamentalScore, reasons;
    if Truthy(growth) {
      if growth.value >= 0.15 {
        fundamentalScore' := fundamentalScore' + 15;
      } else if growth.value >= 0.10 {
        fundamentalScore' := fundamentalScore' + 12;
      } else if growth.value >= 0.05 {
        fundamentalScore' := fundamentalScore' + 8;
      } else {
        reasons' := reasons' + [LowRevenueGrowth(growth.value)];
      }
    }
  }

  /** The price-against-average block: adds its tier's points, or notes why not. */
  method PriceSmaStep(price: Option<real>, sma: Option<real>, technicalScore: int, reasons: seq<Reason>)
    returns (technicalScore': int, reasons': seq<Reason>)
    ensures technicalScore' == technicalScore + PriceSmaVerdict(price, sma).Points()
    ensures reasons' == PriceSmaVerdict(price, sma).AppendTo(reasons)
  {
    technicalScore', reasons' := technicalScore, reasons;
    if Truthy(sma) && Truthy(price) {
      var priceRatio := price.value / sma.value;
      if priceRatio >= 1.0 {
        technicalScore' := technicalScore' + 15;
      } else if priceRatio >= 0.95 {
        technicalScore' := technicalScore' + 10;
      } else if priceRatio >= 0.90 {
        technicalScore' := technicalScore' + 5;
      } else {
        reasons' := reasons' + [PriceBelowSma(priceRatio)];
      }
    } else {
      reasons' := reasons' + [NoTechnicalData];
    }
  }

  /** The volume block: adds its tier's points and never records a reason. */
  method VolumeStep(avg: Option<real>, recent: Option<real>, technicalScore: int)
    returns (technicalScore': int)
    ensures technicalScore' == technicalScore + VolumeVerdict(avg, recent).Points()
  {
    technicalScore' := technicalScore;
    if Truthy(avg) && Truthy(recent) && avg.value > 0.0 {
      var volumeRatio := recent.value / avg.value;
      if volumeRatio >= 1.2 {
        technicalScore' := technicalScore' + 15;
      } else if volumeRatio >= 0.8 {
        technicalScore' := technicalScore' + 10;
      } else if volumeRatio >= 0.5 {
        technicalScore' := technicalScore' + 5;
      }
    }
  }

  // ---------------------------------------------------------------------------
  // Worked cases
  // ---------------------------------------------------------------------------

  /** A record that is favourable on every factor scores 100, passes and has no reason. */
  lemma AllFavourableScoresFull()
    ensures Score(Some(MetricRecord("Example", "Tech", Some(12.0), Some(0.22), Some(0.25), Some(0.18),
                                    Some(3.0e12), Some(105.0), Some(100.0), Some(100.0), Some(130.0))))
            == ScoreResult(true, 100, [])
  {
  }

  /** A P/E of 40 fails the ticker with a "High P/E" reason although it scores 80. */
  lemma HighPeFailsDespiteScore()
    ensures var res := Score(Some(MetricRecord("Example", "Tech", Some(40.0), Some(0.22), Some(0.25), Some(0.18),
                                               Some(3.0e12), Some(105.0), Some(100.0), Some(100.0), Some(130.0))));
            !res.passes && res.score == 80 && res.reasons == [HighPE(40.0)]
  {
  }

  /**
   * Without a current price (and so without a price-to-average ratio) the
   * fundamentals alone can still pass a ticker.
   */
  lemma PassesWithoutCurrentPrice()
    ensures var r := MetricRecord("Example", "Tech", Some(12.0), Some(0.22), Some(0.25), Some(0.18),
                                  None, None, None, None, None);
            var res := Score(Some(r));
            res.passes && res.score == 70 && !Truthy(r.currentPrice)
  {
  }
}
