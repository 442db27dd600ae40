/**
 * Candle geometry: the OHLC input record and the metrics derived from it
 * (colour, wicks, body, range and the three guarded percentages).
 * Prices are exact reals.
 */
module CandleMetrics {

  /** One OHLC price bar, as entered by the user. */
  datatype Candle = Candle(open: real, high: real, low: real, close: real)

  /** The colour label of a candle: it closed above, below or at its open. */
  datatype Color = Green | Red | Neutral

  /** Everything the metrics step derives from one candle. */
  datatype Metrics = Metrics(
    isGreen: bool,
    isRed: bool,
    upperWick: real,
    lowerWick: real,
    body: real,
    priceRange: real,
    bodyPercent: real,
    upperWickPercent: real,
    lowerWickPercent: real,
    wickDiff: real,
    wickDiffPercent: real,
    color: Color)

  /** The guard the caller applies before computing metrics: all four prices
      positive, the high at or above open and close, the low at or below both. */
  function ValidCandle(c: Candle): (ok: bool)
    // equivalently: a positive low, and the body lying inside [low, high]
    ensures ok <==>
      && 0.0 < c.low <= Min(c.open, c.close)
      && Max(c.open, c.close) <= c.high
  {
    && c.open > 0.0 && c.high > 0.0 && c.low > 0.0 && c.close > 0.0
    && c.high >= c.open && c.high >= c.close
    && c.low <= c.open && c.low <= c.close
  }

  function Max(a: real, b: real): real { if a >= b then a else b }

  function Min(a: real, b: real): real { if a <= b then a else b }

  /** Absolute value, as Math.abs on a number. */
  function Abs(x: real): (r: real)
    ensures r >= 0.0
    ensures r == x || r == -x
  {
    if x < 0.0 then -x else x
  }

  /** `num / den * 100` when the denominator is positive and 0 otherwise:
      the division-by-zero guard used for every percentage. */
  function GuardedPercent(num: real, den: real): (r: real)
    ensures den > 0.0 ==> r * den == 100.0 * num
    ensures den <= 0.0 ==> r == 0.0
  {
    if den > 0.0 then num / den * 100.0 else 0.0
  }

  /** A guarded percentage of a non-negative numerator is non-negative. */
  lemma PercentNonNegative(num: real, den: real)
    requires num >= 0.0
    ensures GuardedPercent(num, den) >= 0.0
  {
  }

  /** A guarded percentage is at most `100 * k` when the numerator is at most
      `k` times the denominator. */
  lemma PercentAtMost(num: real, den: real, k: real)
    requires k >= 0.0
    requires den > 0.0 ==> num <= k * den
    ensures GuardedPercent(num, den) <= 100.0 * k
  {
  }

  /** A guarded percentage that reaches some positive level forces its
      numerator to be strictly positive. */
  lemma PositivePercentHasPositiveNumerator(num: real, den: real, level: real)
    requires level > 0.0
    requires GuardedPercent(num, den) >= level
    ensures den > 0.0 && num > 0.0
  {
  }

  /** The mean of the two wicks, the denominator of the wick-difference
      percentage. */
  function AvgWick(upper: real, lower: real): (r: real)
    ensures Min(upper, lower) <= r <= Max(upper, lower)
  {
    (upper + lower) / 2.0
  }

  /** The colour classification of a candle. */
  function ColorOf(c: Candle): (col: Color)
    ensures col == Green <==> c.close > c.open
    ensures col == Red <==> c.close < c.open
    ensures col == Neutral <==> c.close == c.open
  {
    if c.close > c.open then Green
    else if c.close < c.open then Red
    else Neutral
  }

  /** The metrics of a candle. The wicks are taken per colour branch: a green
      candle measures them from close (top) and open (bottom), any other
      candle, the neutral one included, from open (top) and close (bottom). */
  function CalculateMetrics(c: Candle): (m: Metrics)
    // colour: at most one of green and red, neutral exactly when close equals open
    ensures m.isGreen <==> c.close > c.open
    ensures m.isRed <==> c.close < c.open
    ensures !(m.isGreen && m.isRed)
    ensures m.color == Neutral <==> !m.isGreen && !m.isRed
    ensures m.color == Green <==> m.isGreen
    ensures m.color == Red <==> m.isRed
    // the colour-dependent wicks are the distances from the body to the extremes
    ensures m.upperWick == c.high - Max(c.open, c.close)
    ensures m.lowerWick == Min(c.open, c.close) - c.low
    ensures m.body >= 0.0 && (m.body == c.close - c.open || m.body == c.open - c.close)
    ensures m.priceRange == c.high - c.low
    // the four lengths partition the range
    ensures m.upperWick + m.body + m.lowerWick == m.priceRange
    ensures m.wickDiff >= 0.0
    ensures m.wickDiff == m.upperWick - m.lowerWick || m.wickDiff == m.lowerWick - m.upperWick
  {
    var isGreen := c.close > c.open;
    var isRed := c.close < c.open;
    var upperWick := if isGreen then c.high - c.close else c.high - c.open;
    var lowerWick := if isGreen then c.open - c.low else c.close - c.low;
    var color := ColorOf(c);
    var body := Abs(c.close - c.open);
    var priceRange := c.high - c.low;
    var avgWick := AvgWick(upperWick, lowerWick);
    var wickDiff := Abs(upperWick - lowerWick);
    var wickDiffPercent := GuardedPercent(wickDiff, avgWick);
    var m := Metrics(
      isGreen,
      isRed,
      upperWick,
      lowerWick,
      body,
      priceRange,
      GuardedPercent(body, priceRange),
      GuardedPercent(upperWick, c.close),
      GuardedPercent(lowerWick, c.close),
      wickDiff,
      wickDiffPercent,
      color);
    m
  }

  /** Each percentage is its ratio times 100 behind its guard, and 0 when the
      guard fails: body over a positive range, each wick over a positive
      close, the wick difference over a positive mean wick. */
  lemma BodyPercentGuarded(c: Candle)
    ensures var m := CalculateMetrics(c);
      && (m.priceRange > 0.0 ==> m.bodyPercent * m.priceRange == 100.0 * m.body)
      && (m.priceRange <= 0.0 ==> m.bodyPercent == 0.0)
  {
  }

  lemma WickPercentsGuarded(c: Candle)
    ensures var m := CalculateMetrics(c);
      && (c.close > 0.0 ==> m.upperWickPercent * c.close == 100.0 * m.upperWick)
      && (c.close > 0.0 ==> m.lowerWickPercent * c.close == 100.0 * m.lowerWick)
      && (c.close <= 0.0 ==> m.upperWickPercent == 0.0 && m.lowerWickPercent == 0.0)
  {
  }

  lemma WickDiffPercentGuarded(c: Candle)
    ensures var m := CalculateMetrics(c);
      && (AvgWick(m.upperWick, m.lowerWick) > 0.0 ==> m.wickDiffPercent * AvgWick(m.upperWick, m.lowerWick) == 100.0 * m.wickDiff)
      && (AvgWick(m.upperWick, m.lowerWick) <= 0.0 ==> m.wickDiffPercent == 0.0)
  {
  }

  /** For a candle that passes the caller's guard, every length is
      non-negative. */
  lemma LengthsNonNegative(c: Candle)
    requires ValidCandle(c)
    ensures var m := CalculateMetrics(c);
      m.upperWick >= 0.0 && m.lowerWick >= 0.0 && m.body >= 0.0 && m.priceRange >= 0.0
  {
  }

  /** For a candle that passes the caller's guard, the body is between 0%
      and 100% of the range. */
  lemma BodyPercentInRange(c: Candle)
    requires ValidCandle(c)
    ensures 0.0 <= CalculateMetrics(c).bodyPercent <= 100.0
  {
    var m := CalculateMetrics(c);
    PercentNonNegative(m.body, m.priceRange);
    PercentAtMost(m.body, m.priceRange, 1.0);
  }

  /** For a candle that passes the caller's guard, the wick difference is
      between 0% and 200% of the mean wick. */
  lemma WickDiffPercentInRange(c: Candle)
    requires ValidCandle(c)
    ensures 0.0 <= CalculateMetrics(c).wickDiffPercent <= 200.0
  {
    var m := CalculateMetrics(c);
    WickDiffPercentGuarded(c);
    PercentNonNegative(m.wickDiff, AvgWick(m.upperWick, m.lowerWick));
    PercentAtMost(m.wickDiff, AvgWick(m.upperWick, m.lowerWick), 2.0);
  }

  /** For a candle that passes the caller's guard, both wick percentages are
      non-negative. */
  lemma WickPercentsNonNegative(c: Candle)
    requires ValidCandle(c)
    ensures CalculateMetrics(c).upperWickPercent >= 0.0
    ensures CalculateMetrics(c).lowerWickPercent >= 0.0
  {
    var m := CalculateMetrics(c);
    PercentNonNegative(m.upperWick, c.close);
    PercentNonNegative(m.lowerWick, c.close);
  }
}
