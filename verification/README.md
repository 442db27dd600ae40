# Doji identifier — a Dafny model of the candle classifier

The Doji identifier is a web page. It takes one OHLC price candle (open, high,
low, close) and says whether the candle is a *doji*: a bar whose open and
close are nearly equal compared with its range. If it is, the page also gives
the doji's sub-type and trading signal. This project models the page's logic
as pure Dafny functions and proves properties about them:

- `CandleMetrics` (`metrics.dfy`) holds the candle and the input guard
  (`ValidCandle`). It also holds the metrics step, `CalculateMetrics`:
  - the colour (green, red or neutral);
  - the upper and lower wick, chosen per colour branch;
  - the body and the range;
  - three percentages, each guarded against a zero or negative denominator.
- `DojiClassifier` (`classifier.dfy`) holds the three threshold constants and
  the four criteria. It also holds `AnalyzeDoji`: when every criterion holds,
  it picks the sub-type (Dragonfly, Gravestone, Long-Legged or Standard) with
  an ordered chain of comparisons.
- `DojiIdentifier` (`identifier.dfy`) holds `HandleAnalyze`, which runs
  validate → metrics → classify. It either refuses the candle, with one of the
  two reasons the page alerts on, or returns the metrics and the
  classification.

Prices are Dafny `real`s. This is exact arithmetic, standing in for
JavaScript's doubles.

Main results:
- For a valid candle, upper wick + body + lower wick equals the range,
  whichever colour branch sets the wicks. This holds because the
  colour-dependent wick formulas always equal the geometric ones:
  `high - max(open, close)` and `min(open, close) - low`.
- Every length is non-negative.
- The body percentage lies in [0, 100] and the wick-difference percentage in
  [0, 200].
- A candle is a doji exactly when all four criteria hold.
- Every doji has both wicks strictly positive.
- When the body is non-negative (it always is, being an absolute value), no
  two of the three wick shapes can hold together. So each sub-type is
  returned exactly when its own shape holds, and the order of the chain does
  not change the result.
- No candle, valid or not, is ever classified as a Dragonfly or a Gravestone
  doji: only Long-Legged and Standard are reported. A doji has both wicks
  positive, and its wick difference is at most 30% of their mean. So neither
  wick exceeds about 1.35 times the other. The Dragonfly and Gravestone
  conditions need one wick to exceed twice the other.

Notes on the source:
- The Dragonfly and Gravestone branches (`components/doji-identifier.tsx:147-154`)
  are dead code. The wick-similarity criterion (line 128) has already
  required wicks too balanced for either condition
  (`DojiNeverDragonflyOrGravestone`). So the bullish and bearish reversal
  signals are never shown. The model keeps both branches as written, because
  the code gives no clear sign of which change was intended: a looser
  similarity test, different shape tests, or a chain run before the criteria.
- The two branches would also disagree with their own text. The Dragonfly
  condition tests for a long *upper* wick and a short lower one, while its
  description says the opposite; Gravestone is mirrored the same way. The
  model keeps the text as an opaque label.
- The criteria panel labels the wick criteria "> 1%". The criteria use `>=`
  (lines 129-130), and the model follows the code.
- For the candle 100/102/98/100.1, the code's own formulas give a
  Long-Legged doji, not a Standard one: both wicks, 1.9 and 2, exceed twice
  the body of 0.1, and neither is below 0.1. This is proved in
  `LongLeggedExample`.

## Model

| member | source | states |
|---|---|---|
| `CandleMetrics.ValidCandle` | components/doji-identifier.tsx:183-192 | The caller's guard, as a definition. Its contract restates it independently: a candle is valid exactly when its low is positive and at most min(open, close), and its high is at least max(open, close). |
| `CandleMetrics.Abs` | components/doji-identifier.tsx:89 | The body and the wick difference are magnitudes: non-negative and equal to the difference or its negation. |
| `CandleMetrics.GuardedPercent` | components/doji-identifier.tsx:92-98 | A guarded percentage times a positive denominator gives 100 × the numerator; a non-positive denominator gives 0, never a division by zero. |
| `CandleMetrics.PercentNonNegative` | components/doji-identifier.tsx:92-98 | A guarded percentage of a non-negative numerator is non-negative. |
| `CandleMetrics.PercentAtMost` | components/doji-identifier.tsx:92-98 | If the numerator is at most k × the denominator, the guarded percentage is at most 100·k. |
| `CandleMetrics.PositivePercentHasPositiveNumerator` | components/doji-identifier.tsx:93-94 | A guarded percentage that reaches a positive level implies a positive denominator and a positive numerator. |
| `CandleMetrics.AvgWick` | components/doji-identifier.tsx:96 | The mean of the upper and lower wick, (upper + lower) / 2, used as the denominator of the wick-difference percentage; it lies between the smaller and the larger wick. |
| `CandleMetrics.ColorOf` | components/doji-identifier.tsx:72-86 | Green exactly when close > open, red exactly when close < open, neutral exactly when they are equal. |
| `CandleMetrics.CalculateMetrics` | components/doji-identifier.tsx:69-114 | Green and red are never both set; neutral means neither. The colour-branch wicks equal high − max(open, close) and min(open, close) − low, the neutral case included. The body is abs(close − open) and the range is high − low. Upper wick + body + lower wick = range. The wick difference is abs(upper − lower). |
| `CandleMetrics.BodyPercentGuarded` | components/doji-identifier.tsx:92 | The body percentage is body / range × 100 when range > 0, and 0 otherwise. |
| `CandleMetrics.WickPercentsGuarded` | components/doji-identifier.tsx:93-94 | Each wick percentage is wick / close × 100 when close > 0, and 0 otherwise. |
| `CandleMetrics.WickDiffPercentGuarded` | components/doji-identifier.tsx:96-98 | The wick-difference percentage is wickDiff / mean wick × 100 when the mean wick > 0, and 0 otherwise. |
| `CandleMetrics.LengthsNonNegative` | components/doji-identifier.tsx:79-90 | For a valid candle, the upper wick, lower wick, body and range are all ≥ 0. |
| `CandleMetrics.BodyPercentInRange` | components/doji-identifier.tsx:89-92 | For a valid candle, 0 ≤ bodyPercent ≤ 100. |
| `CandleMetrics.WickDiffPercentInRange` | components/doji-identifier.tsx:96-98 | For a valid candle, 0 ≤ wickDiffPercent ≤ 200. |
| `CandleMetrics.WickPercentsNonNegative` | components/doji-identifier.tsx:93-94 | For a valid candle, both wick percentages are ≥ 0. |
| `DojiClassifier.EvaluateCriteria` | components/doji-identifier.tsx:127-132 | Each criterion holds exactly at its threshold, with the code's operators: wickDiff% ≤ 30, upper% ≥ 1, lower% ≥ 1, body% < 30 (the constants at lines 46-48). |
| `DojiClassifier.AllCriteria` | components/doji-identifier.tsx:134-137 | The `isDoji` conjunction, as a definition; it holds exactly when the criteria record is all true. |
| `DojiClassifier.DragonflyShape` | components/doji-identifier.tsx:147 | The Dragonfly condition as written (upper > 2·body and lower < body); it implies the upper wick is more than twice the lower one. |
| `DojiClassifier.GravestoneShape` | components/doji-identifier.tsx:151 | The Gravestone condition as written (lower > 2·body and upper < body); it implies the lower wick is more than twice the upper one. |
| `DojiClassifier.LongLeggedShape` | components/doji-identifier.tsx:155 | The Long-Legged condition as written (both wicks > 2·body); with a non-negative body, both wicks exceed the body. |
| `DojiClassifier.SubType` | components/doji-identifier.tsx:147-163 | Each sub-type is returned only when its shape holds. Standard is returned exactly when none of the three shapes holds. |
| `DojiClassifier.ShapesExclusive` | components/doji-identifier.tsx:147-163 | With body ≥ 0, the Dragonfly, Gravestone and Long-Legged shapes are pairwise exclusive. |
| `DojiClassifier.SubTypeByShape` | components/doji-identifier.tsx:147-163 | With body ≥ 0, each of Dragonfly, Gravestone and Long-Legged is returned if and only if its own shape holds. |
| `DojiClassifier.SubTypeReversed` | components/doji-identifier.tsx:147-163 | A reference chain tested in the opposite order. It returns Standard exactly when no shape holds. |
| `DojiClassifier.SubTypeOrderIrrelevant` | components/doji-identifier.tsx:147-163 | With body ≥ 0, the source's chain and the reversed chain agree on every input. |
| `DojiClassifier.SignalOf` | components/doji-identifier.tsx:147-163 | The signal assigned in each branch, as a definition; `KindOfSignal` recovers the sub-type from it, so no two sub-types share a signal. |
| `DojiClassifier.DescriptionOf` | components/doji-identifier.tsx:147-163 | The description text assigned in each branch, as a definition; `KindOfDescription` recovers the sub-type from it, so no two sub-types share a text. |
| `DojiClassifier.AnalyzeDoji` | components/doji-identifier.tsx:116-172 | The criteria record is returned in both outcomes. The result is a doji if and only if all four thresholds hold. A doji carries the sub-type of its wicks and body, with the matching signal and description; a non-doji carries none. |
| `DojiClassifier.BalancedWicksSubType` | components/doji-identifier.tsx:147-163 | When neither wick exceeds twice the other, the chain returns Long-Legged or Standard. |
| `DojiClassifier.SubTypeExamples` | components/doji-identifier.tsx:147-163 | For the chain alone: wicks (3, 0.5), (0.5, 3), (3, 3) and (1.2, 1.1) around body 1 give Dragonfly/bullish, Gravestone/bearish, Long-Legged/high-volatility and Standard/indecision. The first two cases cannot come from any doji: their wick difference is 143% of the mean wick. |
| `DojiIdentifier.DojiHasPositiveWicks` | components/doji-identifier.tsx:127-141 | For every candle, valid or not, a doji verdict implies close > 0 and both wicks strictly positive. |
| `DojiIdentifier.SimilarWicksBalanced` | components/doji-identifier.tsx:95-128 | Two positive wicks whose difference is at most 30% of their mean are balanced: neither exceeds twice the other. |
| `DojiIdentifier.BalancedDojiKind` | components/doji-identifier.tsx:127-163 | For metrics with the wick relations the metrics step guarantees, a doji whose wicks are positive is Long-Legged or Standard. |
| `DojiIdentifier.DojiNeverDragonflyOrGravestone` | components/doji-identifier.tsx:69-163 | For every candle, a doji verdict is Long-Legged or Standard: the Dragonfly and Gravestone branches (lines 147-154) are never taken. |
| `DojiIdentifier.HandleAnalyze` | components/doji-identifier.tsx:182-198 | A candle is analysed if and only if it passes the guard. A non-positive price is refused first, then an inconsistent high or low. An accepted candle gets its metrics and their classification, with non-negative lengths, body% in [0, 100], wickDiff% in [0, 200], and positive wicks when it is a doji. A doji is always Long-Legged or Standard. |
| `DojiIdentifier.LongLeggedExample` | components/doji-identifier.tsx:69-171 | Open 100, high 102, low 98, close 100.1 gives a green candle with wicks 1.9 and 2, body 0.1, range 4, body% 2.5 and wickDiff% 200/39. It passes all four criteria and is a Long-Legged doji. |
| `DojiIdentifier.RejectionExamples` | components/doji-identifier.tsx:183-192 | A zero low is refused as a non-positive price. A high below the close is refused as an invalid price relationship. |

## Left out

- React state and rendering: the `useState` hooks, the setters in `handleAnalyze` and `handleReset`, and the JSX. The model returns the analysis as a value instead of storing it in component state. `handleReset` only clears that state, so it has no counterpart.
- `handleInputChange`: it turns text into numbers with JavaScript's `parseFloat(value) || 0`. The model takes the four prices as numbers.
- The `alert` messages: a refusal is the `Rejection` value naming which of the two checks failed. The `toFixed` display rounding is also left out.
- IEEE-754 doubles: prices and percentages are exact reals, so infinite inputs and NaN are not modelled. For example, `parseFloat("1e400")` is Infinity and passes the guard; Infinity − Infinity then gives NaN, and every criterion comparison is false. At or near a threshold, including the sub-type comparisons against `body * 2` and `body`, the model's verdict may differ from what the doubles compute. Even the worked example differs in the last digits: in doubles its body is 0.09999999999999432 and its body percentage about 2.49999999999986, where the model has 0.1 and 2.5.
- The label strings with emoji for the colour, sub-type and signal: they are the enumerations `Color`, `Kind` and `Signal`. The description texts are kept, without emoji.
