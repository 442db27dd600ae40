/**
 * The doji classifier: four threshold criteria over the candle metrics and,
 * when all of them hold, the sub-type chosen by an ordered chain of wick/body
 * comparisons.
 */
module DojiClassifier {
  import opened CandleMetrics

  /** Largest wick difference, in percent of the mean wick. */
  const WickDiffThreshold: real := 30.0
  /** Smallest wick, in percent of the close price. */
  const MinWickPercent: real := 1.0
  /** Body size must stay below this, in percent of the range. */
  const MaxBodyPercent: real := 30.0

  /** The four criteria, reported whether or not the candle is a doji. */
  datatype Criteria = Criteria(
    wickSimilarity: bool,
    upperWickMin: bool,
    lowerWickMin: bool,
    smallBody: bool)

  datatype Option<T> = None | Some(value: T)

  /** The doji sub-types. */
  datatype Kind = Dragonfly | Gravestone | LongLegged | Standard

  /** The trading signal attached to each sub-type. */
  datatype Signal = BullishReversal | BearishReversal | HighVolatility | Indecision

  /** The classifier's answer: a non-doji carries only the criteria; a doji
      carries its sub-type, signal and description as well. */
  datatype DojiResult =
    | NotDoji(criteria: Criteria)
    | Doji(kind: Kind, signal: Signal, description: string, criteria: Criteria)

  /** The doji verdict: every criterion holds. */
  function AllCriteria(cr: Criteria): (ok: bool)
    ensures ok <==> cr == Criteria(true, true, true, true)
  {
    cr.wickSimilarity && cr.upperWickMin && cr.lowerWickMin && cr.smallBody
  }

  /** The criteria of a set of metrics, each with the comparison the
      classifier uses (inclusive for the wick criteria, strict for the body). */
  function EvaluateCriteria(m: Metrics): (cr: Criteria)
    ensures cr.wickSimilarity <==> m.wickDiffPercent <= 30.0
    ensures cr.upperWickMin <==> m.upperWickPercent >= 1.0
    ensures cr.lowerWickMin <==> m.lowerWickPercent >= 1.0
    ensures cr.smallBody <==> m.bodyPercent < 30.0
  {
    Criteria(
      m.wickDiffPercent <= WickDiffThreshold,
      m.upperWickPercent >= MinWickPercent,
      m.lowerWickPercent >= MinWickPercent,
      m.bodyPercent < MaxBodyPercent)
  }

  // The three shapes the sub-type chain tests, each with strict comparisons.

  /** The upper wick dominates: it is more than twice the lower one. */
  function DragonflyShape(upper: real, lower: real, body: real): (ok: bool)
    ensures ok ==> upper > 2.0 * lower
  {
    upper > body * 2.0 && lower < body
  }

  /** The lower wick dominates: it is more than twice the upper one. */
  function GravestoneShape(upper: real, lower: real, body: real): (ok: bool)
    ensures ok ==> lower > 2.0 * upper
  {
    lower > body * 2.0 && upper < body
  }

  /** Both wicks are long: with a non-negative body, each exceeds the body. */
  function LongLeggedShape(upper: real, lower: real, body: real): (ok: bool)
    ensures ok && body >= 0.0 ==> upper > body && lower > body
  {
    upper > body * 2.0 && lower > body * 2.0
  }

  /** The sub-type chain, first match wins: Dragonfly, Gravestone,
      Long-Legged, then Standard. */
  function SubType(upper: real, lower: real, body: real): (k: Kind)
    ensures k == Dragonfly ==> DragonflyShape(upper, lower, body)
    ensures k == Gravestone ==> GravestoneShape(upper, lower, body)
    ensures k == LongLegged ==> LongLeggedShape(upper, lower, body)
    ensures k == Standard <==>
      !DragonflyShape(upper, lower, body) && !GravestoneShape(upper, lower, body)
      && !LongLeggedShape(upper, lower, body)
  {
    if DragonflyShape(upper, lower, body) then Dragonfly
    else if GravestoneShape(upper, lower, body) then Gravestone
    else if LongLeggedShape(upper, lower, body) then LongLegged
    else Standard
  }

  /** With a non-negative body no two of the three shapes hold together. */
  lemma ShapesExclusive(upper: real, lower: real, body: real)
    requires body >= 0.0
    ensures !(DragonflyShape(upper, lower, body) && GravestoneShape(upper, lower, body))
    ensures !(DragonflyShape(upper, lower, body) && LongLeggedShape(upper, lower, body))
    ensures !(GravestoneShape(upper, lower, body) && LongLeggedShape(upper, lower, body))
  {
  }

  /** With a non-negative body each sub-type is returned exactly when its own
      shape holds, whatever its place in the chain. */
  lemma SubTypeByShape(upper: real, lower: real, body: real)
    requires body >= 0.0
    ensures SubType(upper, lower, body) == Dragonfly <==> DragonflyShape(upper, lower, body)
    ensures SubType(upper, lower, body) == Gravestone <==> GravestoneShape(upper, lower, body)
    ensures SubType(upper, lower, body) == LongLegged <==> LongLeggedShape(upper, lower, body)
  {
  }

  /** The same chain tested in the opposite order, as a reference. */
  function SubTypeReversed(upper: real, lower: real, body: real): (k: Kind)
    ensures k == Standard <==>
      !DragonflyShape(upper, lower, body) && !GravestoneShape(upper, lower, body)
      && !LongLeggedShape(upper, lower, body)
  {
    if LongLeggedShape(upper, lower, body) then LongLegged
    else if GravestoneShape(upper, lower, body) then Gravestone
    else if DragonflyShape(upper, lower, body) then Dragonfly
    else Standard
  }

  /** With a non-negative body the order of the chain does not change the
      outcome. */
  lemma SubTypeOrderIrrelevant(upper: real, lower: real, body: real)
    requires body >= 0.0
    ensures SubType(upper, lower, body) == SubTypeReversed(upper, lower, body)
  {
  }

  /** When neither wick exceeds twice the other, the chain can only answer
      Long-Legged or Standard. */
  lemma BalancedWicksSubType(upper: real, lower: real, body: real)
    requires upper <= 2.0 * lower && lower <= 2.0 * upper
    ensures SubType(upper, lower, body) == LongLegged || SubType(upper, lower, body) == Standard
  {
  }

  /** The sub-type a signal is reported for, the inverse of `SignalOf`. */
  function KindOfSignal(s: Signal): Kind {
    match s
    case BullishReversal => Dragonfly
    case BearishReversal => Gravestone
    case HighVolatility => LongLegged
    case Indecision => Standard
  }

  /** The signal each sub-type reports; no two sub-types share one. */
  function SignalOf(k: Kind): (s: Signal)
    ensures KindOfSignal(s) == k
  {
    match k
    case Dragonfly => BullishReversal
    case Gravestone => BearishReversal
    case LongLegged => HighVolatility
    case Standard => Indecision
  }

  /** The sub-type a description text belongs to, if any. */
  function KindOfDescription(text: string): Option<Kind> {
    if text == "Long lower wick, short upper wick - buyers pushing back" then Some(Dragonfly)
    else if text == "Long upper wick, short lower wick - sellers pushing back" then Some(Gravestone)
    else if text == "Long wicks on both sides - extreme indecision" then Some(LongLegged)
    else if text == "Balanced wicks - market uncertainty" then Some(Standard)
    else None
  }

  /** The fixed description text each sub-type reports; no two sub-types
      share one. */
  function DescriptionOf(k: Kind): (text: string)
    ensures KindOfDescription(text) == Some(k)
  {
    match k
    case Dragonfly => "Long lower wick, short upper wick - buyers pushing back"
    case Gravestone => "Long upper wick, short lower wick - sellers pushing back"
    case LongLegged => "Long wicks on both sides - extreme indecision"
    case Standard => "Balanced wicks - market uncertainty"
  }

  /** Classifies a set of metrics. */
  function AnalyzeDoji(m: Metrics): (r: DojiResult)
    // the criteria are reported in both outcomes
    ensures r.criteria == EvaluateCriteria(m)
    // a doji exactly when all four thresholds are met
    ensures r.Doji? <==>
      && m.wickDiffPercent <= 30.0
      && m.upperWickPercent >= 1.0
      && m.lowerWickPercent >= 1.0
      && m.bodyPercent < 30.0
    ensures r.Doji? <==> AllCriteria(r.criteria)
    // a doji carries the sub-type of its wicks and body, with its signal and text
    ensures r.Doji? ==>
      && r.kind == SubType(m.upperWick, m.lowerWick, m.body)
      && r.signal == SignalOf(r.kind)
      && r.description == DescriptionOf(r.kind)
  {
    var criteria := EvaluateCriteria(m);
    if !AllCriteria(criteria) then
      NotDoji(criteria)
    else
      var kind := SubType(m.upperWick, m.lowerWick, m.body);
      Doji(kind, SignalOf(kind), DescriptionOf(kind), criteria)
  }

  /** The four sub-type cases worked through by hand: wicks (3, 0.5), (0.5, 3),
      (3, 3) and (1.2, 1.1) around a body of 1. These apply to the chain alone:
      the first two have a wick difference of 143% of the mean wick, so no
      doji has them (see `DojiNeverDragonflyOrGravestone`). */
  lemma SubTypeExamples()
    ensures SubType(3.0, 0.5, 1.0) == Dragonfly && SignalOf(Dragonfly) == BullishReversal
    ensures SubType(0.5, 3.0, 1.0) == Gravestone && SignalOf(Gravestone) == BearishReversal
    ensures SubType(3.0, 3.0, 1.0) == LongLegged && SignalOf(LongLegged) == HighVolatility
    ensures SubType(1.2, 1.1, 1.0) == Standard && SignalOf(Standard) == Indecision
  {
  }
}
