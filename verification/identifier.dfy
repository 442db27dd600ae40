/**
 * The analysis entry point: the input guard applied before the metrics are
 * computed, then metrics and classification in sequence.
 */
module DojiIdentifier {
  import opened CandleMetrics
  import opened DojiClassifier

  /** Why an input candle is refused, one reason per alert, in the order the
      guard checks them. */
  datatype Rejection = NonPositivePrice | InvalidPriceRelationship

  /** Outcome of one analysis request. */
  datatype Analysis =
    | Rejected(reason: Rejection)
    | Analyzed(metrics: Metrics, result: DojiResult)

  /** Any doji has a positive close and both wicks strictly positive: each
      wick is at least 1% of the close, and a non-positive close makes both
      wick percentages 0. */
  lemma DojiHasPositiveWicks(c: Candle)
    ensures var m := CalculateMetrics(c);
      AnalyzeDoji(m).Doji? ==> c.close > 0.0 && m.upperWick > 0.0 && m.lowerWick > 0.0
  {
    var m := CalculateMetrics(c);
    if AnalyzeDoji(m).Doji? {
      PositivePercentHasPositiveNumerator(m.upperWick, c.close, MinWickPercent);
      PositivePercentHasPositiveNumerator(m.lowerWick, c.close, MinWickPercent);
    }
  }

  /** The product of two non-negative reals is non-negative. */
  lemma MulNonNegative(x: real, y: real)
    requires x >= 0.0 && y >= 0.0
    ensures x * y >= 0.0
  {
  }

  /** Two positive wicks whose difference is at most 30% of their mean are
      balanced: neither exceeds twice the other. */
  lemma SimilarWicksBalanced(upper: real, lower: real, wickDiff: real, wickDiffPercent: real)
    requires upper > 0.0 && lower > 0.0
    requires wickDiff >= 0.0 && (wickDiff == upper - lower || wickDiff == lower - upper)
    requires wickDiffPercent * AvgWick(upper, lower) == 100.0 * wickDiff
    requires wickDiffPercent <= WickDiffThreshold
    ensures upper <= 2.0 * lower && lower <= 2.0 * upper
  {
    var avg := AvgWick(upper, lower);
    MulNonNegative(WickDiffThreshold - wickDiffPercent, avg);
    assert wickDiff * 20.0 <= 3.0 * (upper + lower);
  }

  /** The metrics-level step: if a doji verdict forces both wicks positive,
      and the wick difference is the guarded percentage of the mean wick,
      then a doji is Long-Legged or Standard. */
  lemma BalancedDojiKind(m: Metrics)
    requires AnalyzeDoji(m).Doji? ==> m.upperWick > 0.0 && m.lowerWick > 0.0
    requires m.wickDiff >= 0.0
    requires m.wickDiff == m.upperWick - m.lowerWick || m.wickDiff == m.lowerWick - m.upperWick
    requires AvgWick(m.upperWick, m.lowerWick) > 0.0 ==>
      m.wickDiffPercent * AvgWick(m.upperWick, m.lowerWick) == 100.0 * m.wickDiff
    ensures AnalyzeDoji(m).Doji? ==>
      AnalyzeDoji(m).kind == LongLegged || AnalyzeDoji(m).kind == Standard
  {
    if AnalyzeDoji(m).Doji? {
      SimilarWicksBalanced(m.upperWick, m.lowerWick, m.wickDiff, m.wickDiffPercent);
      BalancedWicksSubType(m.upperWick, m.lowerWick, m.body);
    }
  }

  /** The Dragonfly and Gravestone branches of the sub-type chain are never
      reached, for any candle. A doji has both wicks positive and a wick
      difference of at most 30% of the mean wick, so neither wick exceeds
      about 1.35 times the other; the Dragonfly and Gravestone shapes need
      one wick to exceed twice the other. */
  lemma DojiNeverDragonflyOrGravestone(c: Candle)
    ensures var r := AnalyzeDoji(CalculateMetrics(c));
      r.Doji? ==> r.kind == LongLegged || r.kind == Standard
  {
    DojiHasPositiveWicks(c);
    WickDiffPercentGuarded(c);
    BalancedDojiKind(CalculateMetrics(c));
  }

  /** Validates the candle, then computes its metrics and classifies them. */
  function HandleAnalyze(c: Candle): (a: Analysis)
    ensures a.Analyzed? <==> ValidCandle(c)
    ensures a == Rejected(NonPositivePrice) <==>
      c.open <= 0.0 || c.high <= 0.0 || c.low <= 0.0 || c.close <= 0.0
    ensures a.Analyzed? ==>
      && a.metrics == CalculateMetrics(c)
      && a.result == AnalyzeDoji(a.metrics)
    // properties every accepted candle's analysis carries
    ensures a.Analyzed? ==>
      && a.metrics.upperWick >= 0.0 && a.metrics.lowerWick >= 0.0
      && a.metrics.body >= 0.0 && a.metrics.priceRange >= 0.0
      && 0.0 <= a.metrics.bodyPercent <= 100.0
      && 0.0 <= a.metrics.wickDiffPercent <= 200.0
    ensures a.Analyzed? && a.result.Doji? ==>
      a.metrics.upperWick > 0.0 && a.metrics.lowerWick > 0.0
    ensures a.Analyzed? && a.result.Doji? ==>
      a.result.kind == LongLegged || a.result.kind == Standard
  {
    if c.open <= 0.0 || c.high <= 0.0 || c.low <= 0.0 || c.close <= 0.0 then
      Rejected(NonPositivePrice)
    else if c.high < c.open || c.high < c.close || c.low > c.open || c.low > c.close then
      Rejected(InvalidPriceRelationship)
    else
      LengthsNonNegative(c);
      BodyPercentInRange(c);
      WickDiffPercentInRange(c);
      DojiHasPositiveWicks(c);
      DojiNeverDragonflyOrGravestone(c);
      var m := CalculateMetrics(c);
      Analyzed(m, AnalyzeDoji(m))
  }

  /** A worked example: open 100, high 102, low 98, close 100.1 is a green
      candle with wicks 1.9 and 2, body 0.1 and a body of 2.5% of the range;
      it meets all four criteria and both wicks exceed twice the body, so it
      is a Long-Legged doji. */
  lemma LongLeggedExample()
    ensures var a := HandleAnalyze(Candle(100.0, 102.0, 98.0, 100.1));
      && a.Analyzed?
      && a.metrics.color == Green
      && a.metrics.upperWick == 1.9 && a.metrics.lowerWick == 2.0
      && a.metrics.body == 0.1 && a.metrics.priceRange == 4.0
      && a.metrics.bodyPercent == 2.5
      && a.metrics.wickDiffPercent * 39.0 == 200.0
      && a.result == Doji(LongLegged, HighVolatility, DescriptionOf(LongLegged),
                          Criteria(true, true, true, true))
  {
  }

  /** Each reason for refusal is reached: a non-positive price, and a high
      below the close. */
  lemma RejectionExamples()
    ensures HandleAnalyze(Candle(100.0, 102.0, 0.0, 100.0)) == Rejected(NonPositivePrice)
    ensures HandleAnalyze(Candle(100.0, 101.0, 98.0, 101.5)) == Rejected(InvalidPriceRelationship)
  {
  }
}
