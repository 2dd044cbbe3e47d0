/** The seller reward engine: from one month of seller metrics to a quality
    score, a time-decayed base emission, a gated quality multiplier,
    threshold penalties, a net monthly token reward with 6- and 12-month
    projections, improvement suggestions, and the cumulative series drawn
    on the projection chart. All numbers are exact reals. */
module Tokenomics {
  import opened JsMath

  // ---------------------------------------------------------------------
  // Constants
  // ---------------------------------------------------------------------

  /** Tokens emitted per order before decay and quality scaling. */
  const BaseEmissionPerOrder: real := 0.1
  /** Rate of the exponential emission decay, per month on the platform. */
  const TimeDecayRate: real := 0.02
  /** Lowest emission decay factor, whatever the tenure. */
  const MinTimeDecayFactor: real := 0.1
  /** Below this quality score a seller earns no tokens. */
  const MinQualityScore: real := 50.0
  /** Return-rate percentage above which penalties accrue. */
  const PenaltyThresholdReturns: real := 15.0
  /** Cancellation-rate percentage above which penalties accrue. */
  const PenaltyThresholdCancellations: real := 10.0
  /** Penalty tokens per return-rate point above its threshold. */
  const ReturnPenaltyPerPoint: real := 5.0
  /** Penalty tokens per cancellation-rate point above its threshold. */
  const CancellationPenaltyPerPoint: real := 3.0

  /** Weights of the four sub-scores in the quality score. */
  const ReturnRateWeight: real := 0.35
  const DeliveryWeight: real := 0.30
  const CancellationWeight: real := 0.20
  const InventoryWeight: real := 0.15

  /** The quality multiplier runs linearly from 0.5x at the gate to 2.0x at 100. */
  const MinMultiplier: real := 0.5
  const MaxMultiplier: real := 2.0

  // ---------------------------------------------------------------------
  // Data model
  // ---------------------------------------------------------------------

  /** One month of a seller's metrics; the rates are percentages that are
      meant to lie in 0..100 but are not checked. */
  datatype SellerMetrics = SellerMetrics(
    monthlySalesVolume: real,
    returnRate: real,
    onTimeDeliveryRate: real,
    cancellationRate: real,
    inventoryAccuracy: real,
    monthsOnPlatform: real)

  /** The four sub-scores of the quality score, each rounded to cents. */
  datatype Breakdown = Breakdown(
    returnRateScore: real,
    deliveryScore: real,
    cancellationScore: real,
    inventoryScore: real)

  /** What the quality scorer returns: the rounded score and its breakdown. */
  datatype ScoredQuality = ScoredQuality(score: real, breakdown: Breakdown)

  /** An improvement hint: which rule fired, the metric's current value and
      the whole-number impact the message quotes. The message wording is not
      modelled. */
  datatype Suggestion =
    | ReduceReturns(returnRate: real, tokenGainPercent: int)
    | ImproveDelivery(deliveryRate: real, qualityGainPercent: int)
    | ReduceCancellations(cancellationRate: real, penaltyCutTokens: int)
    | ImproveInventory(inventoryAccuracy: real)
    | KeepItUp

  /** Everything one calculation reports; every number but the score's is
      rounded to cents here (the score is rounded by the scorer). */
  datatype CalculationResult = CalculationResult(
    qualityScore: real,
    monthlyTokenReward: real,
    penalties: real,
    baseEmission: real,
    qualityMultiplier: real,
    timeDecayFactor: real,
    projection6Months: real,
    projection12Months: real,
    breakdown: Breakdown,
    suggestions: seq<Suggestion>)

  /** One point of the projection chart. */
  datatype ProjectionPoint = ProjectionPoint(month: int, tokens: real, cumulative: real)

  predicate IsPercentage(x: real) {
    0.0 <= x <= 100.0
  }

  /** The four rates that enter the quality score all lie in 0..100. */
  predicate PercentagesInRange(m: SellerMetrics) {
    IsPercentage(m.returnRate) && IsPercentage(m.onTimeDeliveryRate) &&
    IsPercentage(m.cancellationRate) && IsPercentage(m.inventoryAccuracy)
  }

  /** m is at least as good as m' on all four rates: lower returns and
      cancellations, higher delivery and inventory. */
  predicate RatesAtLeastAsGood(m: SellerMetrics, m': SellerMetrics) {
    m.returnRate <= m'.returnRate &&
    m.cancellationRate <= m'.cancellationRate &&
    m.onTimeDeliveryRate >= m'.onTimeDeliveryRate &&
    m.inventoryAccuracy >= m'.inventoryAccuracy
  }

  /** m is at least as good as m' on all four rates, with the same volume
      and tenure. */
  predicate AtLeastAsGood(m: SellerMetrics, m': SellerMetrics) {
    RatesAtLeastAsGood(m, m') &&
    m.monthlySalesVolume == m'.monthlySalesVolume &&
    m.monthsOnPlatform == m'.monthsOnPlatform
  }

  // ---------------------------------------------------------------------
  // Quality score
  // ---------------------------------------------------------------------

  /** Return rate, inverted: two points lost per percent returned, never below 0. */
  function ReturnRateScore(returnRate: real): (s: real)
    ensures s >= 0.0
    ensures returnRate <= 50.0 ==> s == 100.0 - 2.0 * returnRate
    ensures returnRate >= 50.0 ==> s == 0.0
  {
    Max(0.0, 100.0 - returnRate * 2.0)
  }

  /** Cancellation rate, inverted: three points lost per percent cancelled, never below 0. */
  function CancellationScore(cancellationRate: real): (s: real)
    ensures s >= 0.0
    ensures 3.0 * cancellationRate <= 100.0 ==> s == 100.0 - 3.0 * cancellationRate
    ensures 3.0 * cancellationRate >= 100.0 ==> s == 0.0
  {
    Max(0.0, 100.0 - cancellationRate * 3.0)
  }

  /** The weighted sum of the four sub-scores, before rounding. */
  function RawQualityScore(m: SellerMetrics): real {
    ReturnRateScore(m.returnRate) * ReturnRateWeight +
    m.onTimeDeliveryRate * DeliveryWeight +
    CancellationScore(m.cancellationRate) * CancellationWeight +
    m.inventoryAccuracy * InventoryWeight
  }

  /** The quality scorer: the weighted score and each sub-score, rounded to cents. */
  function CalculateQualityScore(m: SellerMetrics): (q: ScoredQuality)
    ensures IsCents(q.score)
    ensures RawQualityScore(m) - 0.005 < q.score <= RawQualityScore(m) + 0.005
    ensures q.breakdown.returnRateScore >= 0.0 && q.breakdown.cancellationScore >= 0.0
  {
    var returnRateScore := ReturnRateScore(m.returnRate);
    var cancellationScore := CancellationScore(m.cancellationRate);
    Round2NonNegative(returnRateScore);
    Round2NonNegative(cancellationScore);
    ScoredQuality(
      Round2(RawQualityScore(m)),
      Breakdown(
        Round2(returnRateScore),
        Round2(m.onTimeDeliveryRate),
        Round2(cancellationScore),
        Round2(m.inventoryAccuracy)))
  }

  /** The score reads only the four rates. */
  lemma SameRatesSameScore(m: SellerMetrics, m': SellerMetrics)
    requires m.returnRate == m'.returnRate && m.onTimeDeliveryRate == m'.onTimeDeliveryRate
    requires m.cancellationRate == m'.cancellationRate && m.inventoryAccuracy == m'.inventoryAccuracy
    ensures CalculateQualityScore(m) == CalculateQualityScore(m')
  {
    assert RawQualityScore(m) == RawQualityScore(m');
  }

  /** The weights sum to one: four equal sub-scores give that same score. */
  lemma WeightsSumToOne(s: real)
    ensures s * ReturnRateWeight + s * DeliveryWeight + s * CancellationWeight + s * InventoryWeight == s
  {
  }

  /** With all four rates in 0..100 the score, before and after rounding,
      lies in 0..100. */
  lemma QualityScoreBounds(m: SellerMetrics)
    requires PercentagesInRange(m)
    ensures 0.0 <= RawQualityScore(m) <= 100.0
    ensures 0.0 <= CalculateQualityScore(m).score <= 100.0
  {
    assert 0.0 <= ReturnRateScore(m.returnRate) <= 100.0;
    assert 0.0 <= CancellationScore(m.cancellationRate) <= 100.0;
    Round2Within(0.0, RawQualityScore(m), 100.0);
  }

  /** Better rates never give a lower score: raising the return or
      cancellation rate never raises it, raising delivery or inventory
      accuracy never lowers it, before and after rounding. */
  lemma QualityScoreMonotone(m: SellerMetrics, m': SellerMetrics)
    requires RatesAtLeastAsGood(m, m')
    ensures RawQualityScore(m') <= RawQualityScore(m)
    ensures CalculateQualityScore(m').score <= CalculateQualityScore(m).score
  {
    assert ReturnRateScore(m'.returnRate) <= ReturnRateScore(m.returnRate);
    assert CancellationScore(m'.cancellationRate) <= CancellationScore(m.cancellationRate);
    Round2Monotone(RawQualityScore(m'), RawQualityScore(m));
  }

  // ---------------------------------------------------------------------
  // Time decay and base emission
  // ---------------------------------------------------------------------

  /** exp is non-decreasing, as Math.exp is. */
  ghost predicate ExpMonotone(exp: real -> real) {
    forall x: real, y: real :: x <= y ==> exp(x) <= exp(y)
  }

  /** The emission decay for a tenure: exp(-0.02 * months), where exp stands
      for Math.exp, but never below 0.1. */
  function TimeDecayFactor(exp: real -> real, monthsOnPlatform: real): (f: real)
    ensures f >= MinTimeDecayFactor
    ensures f >= exp(-TimeDecayRate * monthsOnPlatform)
    ensures f == MinTimeDecayFactor || f == exp(-TimeDecayRate * monthsOnPlatform)
  {
    Max(MinTimeDecayFactor, exp(-TimeDecayRate * monthsOnPlatform))
  }

  /** With a non-decreasing exp, a longer tenure never gives a larger decay factor. */
  lemma TimeDecayNonIncreasing(exp: real -> real, t: real, t': real)
    requires ExpMonotone(exp)
    requires t <= t'
    ensures TimeDecayFactor(exp, t') <= TimeDecayFactor(exp, t)
  {
    assert exp(-TimeDecayRate * t') <= exp(-TimeDecayRate * t);
  }

  /** With a non-decreasing exp and exp(0) == 1, the decay factor of a
      non-negative tenure lies in [0.1, 1]. */
  lemma TimeDecayInUnitInterval(exp: real -> real, t: real)
    requires ExpMonotone(exp) && exp(0.0) == 1.0
    requires t >= 0.0
    ensures MinTimeDecayFactor <= TimeDecayFactor(exp, t) <= 1.0
  {
    assert exp(-TimeDecayRate * t) <= exp(0.0);
  }

  /** Tokens emitted for a month's orders after decay. */
  function BaseEmission(monthlySalesVolume: real, timeDecayFactor: real): (e: real)
    ensures monthlySalesVolume >= 0.0 && timeDecayFactor >= 0.0 ==> e >= 0.0
    ensures timeDecayFactor > 0.0 ==> (e > 0.0 <==> monthlySalesVolume > 0.0)
  {
    var baseEmission := monthlySalesVolume * BaseEmissionPerOrder;
    baseEmission * timeDecayFactor
  }

  /** More orders, or a larger decay factor, never emit fewer tokens. */
  lemma BaseEmissionMonotone(v: real, v': real, d: real, d': real)
    requires 0.0 <= v <= v' && 0.0 <= d <= d'
    ensures 0.0 <= BaseEmission(v, d) <= BaseEmission(v', d')
  {
    MulMonotone(v * BaseEmissionPerOrder, v' * BaseEmissionPerOrder, d, d');
  }

  /** Sign rules for a product, spelled out for the solver. */
  lemma MulSign(a: real, b: real)
    ensures a >= 0.0 && b >= 0.0 ==> a * b >= 0.0
    ensures a > 0.0 && b > 0.0 ==> a * b > 0.0
    ensures a <= 0.0 && b > 0.0 ==> a * b <= 0.0
  {
  }

  /** A product of non-negative factors grows with each factor. */
  lemma MulMonotone(a: real, a': real, b: real, b': real)
    requires 0.0 <= a <= a' && 0.0 <= b <= b'
    ensures a * b <= a' * b'
  {
    assert a * b <= a' * b by {
      MulSign(a' - a, b);
    }
    assert a' * b <= a' * b' by {
      MulSign(a', b' - b);
    }
  }

  // ---------------------------------------------------------------------
  // Quality multiplier (with the gate)
  // ---------------------------------------------------------------------

  /** 0 below the gate; from the gate on, linear from 0.5x at 50 to 2.0x at 100
      (and beyond 2.0x for a score above 100, which is not clamped). */
  function QualityMultiplier(qualityScore: real): (k: real)
    ensures qualityScore < MinQualityScore ==> k == 0.0
    ensures qualityScore >= MinQualityScore ==> k >= MinMultiplier
    ensures qualityScore <= 100.0 ==> k <= MaxMultiplier
  {
    if qualityScore < MinQualityScore then
      0.0
    else
      var normalizedScore := (qualityScore - MinQualityScore) / (100.0 - MinQualityScore);
      MinMultiplier + normalizedScore * (MaxMultiplier - MinMultiplier)
  }

  /** The multiplier is exactly 0.5 at the gate and 2.0 at a perfect score. */
  lemma QualityMultiplierEndpoints()
    ensures QualityMultiplier(MinQualityScore) == MinMultiplier
    ensures QualityMultiplier(100.0) == MaxMultiplier
  {
  }

  /** A higher score never gives a lower multiplier, across the gate too. */
  lemma QualityMultiplierMonotone(q: real, q': real)
    requires q <= q'
    ensures QualityMultiplier(q) <= QualityMultiplier(q')
  {
  }

  /** From the gate on, the multiplier follows the line 0.5 + 1.5 * (q - 50) / 50. */
  lemma QualityMultiplierLine(q: real)
    requires q >= MinQualityScore
    ensures QualityMultiplier(q) == 0.5 + 1.5 * (q - 50.0) / 50.0
  {
  }

  // ---------------------------------------------------------------------
  // Penalties
  // ---------------------------------------------------------------------

  /** The penalty total in closed form: 5 tokens per return-rate point over 15
      and 3 tokens per cancellation-rate point over 10. */
  function Penalties(m: SellerMetrics): (p: real)
    ensures p >= 0.0
    ensures p == 0.0 <==>
      m.returnRate <= PenaltyThresholdReturns && m.cancellationRate <= PenaltyThresholdCancellations
  {
    ReturnPenaltyPerPoint * Max(0.0, m.returnRate - PenaltyThresholdReturns) +
    CancellationPenaltyPerPoint * Max(0.0, m.cancellationRate - PenaltyThresholdCancellations)
  }

  /** The penalty total as the TypeScript code accumulates it: start from
      zero and add each excess that is over its threshold. */
  method CalculatePenalties(m: SellerMetrics) returns (penalties: real)
    ensures penalties == Penalties(m)
  {
    penalties := 0.0;
    if m.returnRate > PenaltyThresholdReturns {
      var excessReturns := m.returnRate - PenaltyThresholdReturns;
      penalties := penalties + excessReturns * ReturnPenaltyPerPoint;
    }
    if m.cancellationRate > PenaltyThresholdCancellations {
      var excessCancellations := m.cancellationRate - PenaltyThresholdCancellations;
      penalties := penalties + excessCancellations * CancellationPenaltyPerPoint;
    }
  }

  /** Worse rates never lower the penalties. */
  lemma PenaltiesMonotone(m: SellerMetrics, m': SellerMetrics)
    requires m.returnRate <= m'.returnRate && m.cancellationRate <= m'.cancellationRate
    ensures Penalties(m) <= Penalties(m')
  {
  }

  // ---------------------------------------------------------------------
  // Suggestions
  // ---------------------------------------------------------------------

  /** Position of each kind of hint in the list. */
  function Rank(s: Suggestion): nat {
    match s
    case ReduceReturns(_, _) => 0
    case ImproveDelivery(_, _) => 1
    case ReduceCancellations(_, _) => 2
    case ImproveInventory(_) => 3
    case KeepItUp => 4
  }

  predicate ReturnsRuleFires(m: SellerMetrics) { m.returnRate > 10.0 }
  predicate DeliveryRuleFires(m: SellerMetrics) { m.onTimeDeliveryRate < 95.0 }
  predicate CancellationsRuleFires(m: SellerMetrics) { m.cancellationRate > 5.0 }
  predicate InventoryRuleFires(m: SellerMetrics) { m.inventoryAccuracy < 98.0 }

  predicate AnyRuleFires(m: SellerMetrics) {
    ReturnsRuleFires(m) || DeliveryRuleFires(m) || CancellationsRuleFires(m) || InventoryRuleFires(m)
  }

  /** The hints for each rule, with the numbers their messages quote. */
  function ReturnsHint(m: SellerMetrics): Suggestion {
    ReduceReturns(m.returnRate, Round((m.returnRate - 10.0) * 2.0 * 0.35))
  }

  function DeliveryHint(m: SellerMetrics): Suggestion {
    ImproveDelivery(m.onTimeDeliveryRate, Round((95.0 - m.onTimeDeliveryRate) * 0.30))
  }

  function CancellationsHint(m: SellerMetrics): Suggestion {
    ReduceCancellations(m.cancellationRate, Round((m.cancellationRate - 5.0) * 3.0))
  }

  function InventoryHint(m: SellerMetrics): Suggestion {
    ImproveInventory(m.inventoryAccuracy)
  }

  /** The hints of the rules that fire, in rule order. */
  function FiredHints(m: SellerMetrics): (s: seq<Suggestion>)
    ensures |s| <= 4
    ensures |s| == 0 <==> !AnyRuleFires(m)
    ensures KeepItUp !in s
  {
    (if ReturnsRuleFires(m) then [ReturnsHint(m)] else []) +
    (if DeliveryRuleFires(m) then [DeliveryHint(m)] else []) +
    (if CancellationsRuleFires(m) then [CancellationsHint(m)] else []) +
    (if InventoryRuleFires(m) then [InventoryHint(m)] else [])
  }

  /** The suggestion list: the fired hints, or the single fallback when no
      rule fires. */
  function Suggestions(m: SellerMetrics): (s: seq<Suggestion>)
    ensures 1 <= |s| <= 4
    ensures s == [KeepItUp] <==> !AnyRuleFires(m)
  {
    var fired := FiredHints(m);
    if |fired| == 0 then [KeepItUp] else fired
  }

  /** The suggestion list as the TypeScript code builds it: push each hint
      whose rule fires, then push the fallback if nothing was pushed. */
  method GenerateSuggestions(m: SellerMetrics) returns (suggestions: seq<Suggestion>)
    ensures suggestions == Suggestions(m)
  {
    suggestions := [];
    if m.returnRate > 10.0 {
      suggestions := suggestions + [ReturnsHint(m)];
    }
    if m.onTimeDeliveryRate < 95.0 {
      suggestions := suggestions + [DeliveryHint(m)];
    }
    if m.cancellationRate > 5.0 {
      suggestions := suggestions + [CancellationsHint(m)];
    }
    if m.inventoryAccuracy < 98.0 {
      suggestions := suggestions + [InventoryHint(m)];
    }
    if |suggestions| == 0 {
      suggestions := suggestions + [KeepItUp];
    }
  }

  /** What the list holds: each rule's hint exactly when that rule fires, the
      fallback exactly when none fires (and then alone), in the fixed order
      returns, delivery, cancellations, inventory. */
  lemma SuggestionsCharacterized(m: SellerMetrics)
    ensures ReturnsHint(m) in Suggestions(m) <==> ReturnsRuleFires(m)
    ensures DeliveryHint(m) in Suggestions(m) <==> DeliveryRuleFires(m)
    ensures CancellationsHint(m) in Suggestions(m) <==> CancellationsRuleFires(m)
    ensures InventoryHint(m) in Suggestions(m) <==> InventoryRuleFires(m)
    ensures KeepItUp in Suggestions(m) <==> !AnyRuleFires(m)
    ensures forall s :: s in Suggestions(m) ==>
      s == ReturnsHint(m) || s == DeliveryHint(m) || s == CancellationsHint(m) ||
      s == InventoryHint(m) || s == KeepItUp
    ensures forall i, j :: 0 <= i < j < |Suggestions(m)| ==> Rank(Suggestions(m)[i]) < Rank(Suggestions(m)[j])
  {
  }

  /** The impact each fired hint quotes is never negative. */
  lemma HintImpactsNonNegative(m: SellerMetrics)
    ensures ReturnsRuleFires(m) ==> ReturnsHint(m).tokenGainPercent >= 0
    ensures DeliveryRuleFires(m) ==> DeliveryHint(m).qualityGainPercent >= 0
    ensures CancellationsRuleFires(m) ==> CancellationsHint(m).penaltyCutTokens >= 0
  {
  }

  /** As written, the cancellations hint promises a penalty cut of
      3 * (c - 5) tokens, but penalties only accrue above 10%: at a 8%
      cancellation rate the hint quotes 9 tokens while the penalties would
      not change at all. */
  lemma CancellationsHintOverstatesCut(m: SellerMetrics)
    requires m.cancellationRate == 8.0
    ensures CancellationsHint(m) in Suggestions(m)
    ensures CancellationsHint(m).penaltyCutTokens == 9
    ensures Penalties(m.(cancellationRate := 5.0)) == Penalties(m)
  {
    SuggestionsCharacterized(m);
  }

  /** Above the penalty threshold the quoted cut is 15 tokens more than the
      real one, every time. */
  lemma CancellationsHintOverstatesByFifteen(m: SellerMetrics)
    requires m.cancellationRate >= PenaltyThresholdCancellations
    ensures CancellationsHint(m).penaltyCutTokens
         == Round(Penalties(m) - Penalties(m.(cancellationRate := 5.0))) + 15
  {
    var cut := Penalties(m) - Penalties(m.(cancellationRate := 5.0));
    assert cut == 3.0 * (m.cancellationRate - 10.0);
    assert (m.cancellationRate - 5.0) * 3.0 == cut + 15.0;
  }

  /** The cancellations hint with the cut it was evidently meant to quote:
      the penalty tokens actually saved by going down to 5%. */
  function CorrectedCancellationsHint(m: SellerMetrics): (s: Suggestion)
    ensures s.ReduceCancellations? && s.cancellationRate == m.cancellationRate
    ensures s.penaltyCutTokens >= 0
    ensures m.cancellationRate <= PenaltyThresholdCancellations ==> s.penaltyCutTokens == 0
  {
    ReduceCancellations(m.cancellationRate,
      Round(CancellationPenaltyPerPoint * Max(0.0, m.cancellationRate - PenaltyThresholdCancellations)))
  }

  /** Whenever the hint is given, the corrected cut is exactly the rounded
      drop in penalties from bringing cancellations down to 5%. */
  lemma CorrectedCancellationsHintExact(m: SellerMetrics)
    requires CancellationsRuleFires(m)
    ensures CorrectedCancellationsHint(m).penaltyCutTokens
         == Round(Penalties(m) - Penalties(m.(cancellationRate := 5.0)))
  {
    assert Penalties(m) - Penalties(m.(cancellationRate := 5.0))
        == CancellationPenaltyPerPoint * Max(0.0, m.cancellationRate - PenaltyThresholdCancellations);
  }

  // ---------------------------------------------------------------------
  // Net reward
  // ---------------------------------------------------------------------

  /** The month's reward before rounding: scaled emission less penalties,
      floored at zero. */
  function NetMonthlyReward(baseEmission: real, qualityMultiplier: real, penalties: real): (r: real)
    ensures r >= 0.0
    ensures r >= baseEmission * qualityMultiplier - penalties
    ensures r == 0.0 || r == baseEmission * qualityMultiplier - penalties
  {
    Max(0.0, baseEmission * qualityMultiplier - penalties)
  }

  /** The net reward grows with the emission and the multiplier (both
      non-negative) and shrinks with the penalties. */
  lemma NetMonthlyRewardMonotone(b: real, b': real, k: real, k': real, p: real, p': real)
    requires 0.0 <= b <= b' && 0.0 <= k <= k' && p' <= p
    ensures NetMonthlyReward(b, k, p) <= NetMonthlyReward(b', k', p')
  {
    MulMonotone(b, b', k, k');
  }

  /** The whole calculation for one metrics record; exp stands for Math.exp. */
  function CalculateTokenRewards(exp: real -> real, m: SellerMetrics): (r: CalculationResult)
    ensures r.monthlyTokenReward >= 0.0 && r.penalties >= 0.0
    ensures r.projection6Months >= 0.0 && r.projection12Months >= 0.0
    ensures r.timeDecayFactor >= MinTimeDecayFactor
    ensures r.qualityScore == CalculateQualityScore(m).score
    ensures 1 <= |r.suggestions| <= 4
  {
    var scored := CalculateQualityScore(m);
    var timeDecayFactor := TimeDecayFactor(exp, m.monthsOnPlatform);
    var baseEmission := BaseEmission(m.monthlySalesVolume, timeDecayFactor);
    var qualityMultiplier := QualityMultiplier(scored.score);
    var penalties := Penalties(m);
    var monthlyTokenReward := NetMonthlyReward(baseEmission, qualityMultiplier, penalties);
    Round2NonNegative(monthlyTokenReward);
    Round2NonNegative(monthlyTokenReward * 6.0);
    Round2NonNegative(monthlyTokenReward * 12.0);
    Round2NonNegative(penalties);
    Round2Monotone(MinTimeDecayFactor, timeDecayFactor);
    Round2OfCents(MinTimeDecayFactor);
    CalculationResult(
      scored.score,
      Round2(monthlyTokenReward),
      Round2(penalties),
      Round2(baseEmission),
      Round2(qualityMultiplier),
      Round2(timeDecayFactor),
      Round2(monthlyTokenReward * 6.0),
      Round2(monthlyTokenReward * 12.0),
      scored.breakdown,
      Suggestions(m))
  }

  /** The unrounded monthly reward of the calculation. */
  function UnroundedReward(exp: real -> real, m: SellerMetrics): real {
    NetMonthlyReward(
      BaseEmission(m.monthlySalesVolume, TimeDecayFactor(exp, m.monthsOnPlatform)),
      QualityMultiplier(CalculateQualityScore(m).score),
      Penalties(m))
  }

  /** The reported figures are the unrounded reward, and six and twelve
      times it, each rounded to cents. */
  lemma ReportedRewards(exp: real -> real, m: SellerMetrics)
    ensures CalculateTokenRewards(exp, m).monthlyTokenReward == Round2(UnroundedReward(exp, m))
    ensures CalculateTokenRewards(exp, m).projection6Months == Round2(UnroundedReward(exp, m) * 6.0)
    ensures CalculateTokenRewards(exp, m).projection12Months == Round2(UnroundedReward(exp, m) * 12.0)
    ensures CalculateTokenRewards(exp, m).qualityMultiplier == Round2(QualityMultiplier(CalculateQualityScore(m).score))
  {
  }

  /** The hard gate: a score below 50 earns nothing this month and nothing
      in either projection, whatever the volume and penalties. */
  lemma QualityGate(exp: real -> real, m: SellerMetrics)
    requires CalculateTokenRewards(exp, m).qualityScore < MinQualityScore
    ensures UnroundedReward(exp, m) == 0.0
    ensures CalculateTokenRewards(exp, m).qualityMultiplier == 0.0
    ensures CalculateTokenRewards(exp, m).monthlyTokenReward == 0.0
    ensures CalculateTokenRewards(exp, m).projection6Months == 0.0
    ensures CalculateTokenRewards(exp, m).projection12Months == 0.0
  {
    Round2OfCents(0.0);
  }

  /** The projections are the unrounded reward times 6 and 12, rounded once;
      so they are ordered, and each lies within a few cents of the reported
      (rounded) monthly reward times 6 or 12. */
  lemma ProjectionsConsistent(exp: real -> real, m: SellerMetrics)
    ensures CalculateTokenRewards(exp, m).projection6Months == Round2(6.0 * UnroundedReward(exp, m))
    ensures CalculateTokenRewards(exp, m).projection12Months == Round2(12.0 * UnroundedReward(exp, m))
    ensures CalculateTokenRewards(exp, m).monthlyTokenReward
         <= CalculateTokenRewards(exp, m).projection6Months
         <= CalculateTokenRewards(exp, m).projection12Months
    ensures -0.035 < CalculateTokenRewards(exp, m).projection6Months - 6.0 * CalculateTokenRewards(exp, m).monthlyTokenReward < 0.035
    ensures -0.065 < CalculateTokenRewards(exp, m).projection12Months - 12.0 * CalculateTokenRewards(exp, m).monthlyTokenReward < 0.065
  {
    var x := UnroundedReward(exp, m);
    Round2Monotone(x, 6.0 * x);
    Round2Monotone(6.0 * x, 12.0 * x);
  }

  /** The reported monthly reward follows the order of the unrounded one. */
  lemma ReportedRewardMonotone(exp: real -> real, m: SellerMetrics, m': SellerMetrics)
    requires UnroundedReward(exp, m) <= UnroundedReward(exp, m')
    ensures CalculateTokenRewards(exp, m).monthlyTokenReward <= CalculateTokenRewards(exp, m').monthlyTokenReward
  {
    ReportedRewards(exp, m);
    ReportedRewards(exp, m');
    Round2Monotone(UnroundedReward(exp, m), UnroundedReward(exp, m'));
  }

  /** A negative sales volume earns nothing: the emission is not positive,
      the multiplier is not negative and the penalties are not negative. */
  lemma NegativeVolumeEarnsNothing(exp: real -> real, m: SellerMetrics)
    requires m.monthlySalesVolume < 0.0
    ensures UnroundedReward(exp, m) == 0.0
  {
    var d := TimeDecayFactor(exp, m.monthsOnPlatform);
    var b := BaseEmission(m.monthlySalesVolume, d);
    var k := QualityMultiplier(CalculateQualityScore(m).score);
    assert b <= 0.0 by {
      MulSign(m.monthlySalesVolume * BaseEmissionPerOrder, d);
    }
    assert b * k <= 0.0 by {
      MulSign(-b, k);
    }
  }

  /** Better rates never earn fewer tokens: a better score gives an equal or
      larger multiplier and fewer penalties. */
  lemma RewardMonotoneInQuality(exp: real -> real, m: SellerMetrics, m': SellerMetrics)
    requires AtLeastAsGood(m, m')
    ensures UnroundedReward(exp, m') <= UnroundedReward(exp, m)
    ensures CalculateTokenRewards(exp, m').monthlyTokenReward <= CalculateTokenRewards(exp, m).monthlyTokenReward
  {
    if m.monthlySalesVolume < 0.0 {
      NegativeVolumeEarnsNothing(exp, m');
    } else {
      RewardMonotoneInQualityNonNegative(exp, m, m');
    }
    ReportedRewardMonotone(exp, m', m);
  }

  /** RewardMonotoneInQuality for a non-negative volume. */
  lemma RewardMonotoneInQualityNonNegative(exp: real -> real, m: SellerMetrics, m': SellerMetrics)
    requires AtLeastAsGood(m, m')
    requires m.monthlySalesVolume >= 0.0
    ensures UnroundedReward(exp, m') <= UnroundedReward(exp, m)
  {
    var base := BaseEmission(m.monthlySalesVolume, TimeDecayFactor(exp, m.monthsOnPlatform));
    var q, q' := CalculateQualityScore(m).score, CalculateQualityScore(m').score;
    QualityScoreMonotone(m, m');
    QualityMultiplierMonotone(q', q);
    PenaltiesMonotone(m, m');
    NetMonthlyRewardMonotone(base, base, QualityMultiplier(q'), QualityMultiplier(q), Penalties(m'), Penalties(m));
  }

  /** More orders never earn fewer tokens. */
  lemma RewardMonotoneInVolume(exp: real -> real, m: SellerMetrics, v: real)
    requires m.monthlySalesVolume <= v
    ensures UnroundedReward(exp, m) <= UnroundedReward(exp, m.(monthlySalesVolume := v))
    ensures CalculateTokenRewards(exp, m).monthlyTokenReward
         <= CalculateTokenRewards(exp, m.(monthlySalesVolume := v)).monthlyTokenReward
  {
    var m' := m.(monthlySalesVolume := v);
    if m.monthlySalesVolume < 0.0 {
      NegativeVolumeEarnsNothing(exp, m);
    } else {
      var d := TimeDecayFactor(exp, m.monthsOnPlatform);
      var k := QualityMultiplier(CalculateQualityScore(m).score);
      SameRatesSameScore(m, m');
      BaseEmissionMonotone(m.monthlySalesVolume, v, d, d);
      NetMonthlyRewardMonotone(BaseEmission(m.monthlySalesVolume, d), BaseEmission(v, d), k, k, Penalties(m), Penalties(m'));
    }
    ReportedRewardMonotone(exp, m, m');
  }

  /** With a non-decreasing exp, a longer tenure never earns more tokens. */
  lemma RewardNonIncreasingInTenure(exp: real -> real, m: SellerMetrics, t: real)
    requires ExpMonotone(exp)
    requires m.monthsOnPlatform <= t
    ensures UnroundedReward(exp, m.(monthsOnPlatform := t)) <= UnroundedReward(exp, m)
    ensures CalculateTokenRewards(exp, m.(monthsOnPlatform := t)).monthlyTokenReward
         <= CalculateTokenRewards(exp, m).monthlyTokenReward
  {
    TimeDecayNonIncreasing(exp, m.monthsOnPlatform, t);
    RewardFollowsDecay(exp, m, t);
  }

  /** A tenure whose decay factor is no larger never earns more tokens. */
  lemma RewardFollowsDecay(exp: real -> real, m: SellerMetrics, t: real)
    requires TimeDecayFactor(exp, t) <= TimeDecayFactor(exp, m.monthsOnPlatform)
    ensures UnroundedReward(exp, m.(monthsOnPlatform := t)) <= UnroundedReward(exp, m)
    ensures CalculateTokenRewards(exp, m.(monthsOnPlatform := t)).monthlyTokenReward
         <= CalculateTokenRewards(exp, m).monthlyTokenReward
  {
    var m' := m.(monthsOnPlatform := t);
    if m.monthlySalesVolume < 0.0 {
      NegativeVolumeEarnsNothing(exp, m');
    } else {
      RewardFollowsDecayNonNegative(exp, m, t);
    }
    ReportedRewardMonotone(exp, m', m);
  }

  /** RewardFollowsDecay for a non-negative volume. */
  lemma RewardFollowsDecayNonNegative(exp: real -> real, m: SellerMetrics, t: real)
    requires m.monthlySalesVolume >= 0.0
    requires TimeDecayFactor(exp, t) <= TimeDecayFactor(exp, m.monthsOnPlatform)
    ensures UnroundedReward(exp, m.(monthsOnPlatform := t)) <= UnroundedReward(exp, m)
  {
    var m' := m.(monthsOnPlatform := t);
    var d, d' := TimeDecayFactor(exp, m.monthsOnPlatform), TimeDecayFactor(exp, t);
    var k := QualityMultiplier(CalculateQualityScore(m).score);
    var p := Penalties(m);
    SameRatesSameScore(m, m');
    assert Penalties(m') == p;
    var b, b' := BaseEmission(m.monthlySalesVolume, d), BaseEmission(m.monthlySalesVolume, d');
    assert UnroundedReward(exp, m) == NetMonthlyReward(b, k, p);
    assert UnroundedReward(exp, m') == NetMonthlyReward(b', k, p);
    BaseEmissionMonotone(m.monthlySalesVolume, m.monthlySalesVolume, d', d);
    NetMonthlyRewardMonotone(b', b, k, k, p, p);
  }

  /** A worked record: 1000 orders, 8% returns, 92% on time, no
      cancellations, perfect inventory, six months on the platform. The
      score is 29.4 + 27.6 + 20 + 15 = 92, the multiplier 1.76, there are no
      penalties, only the delivery hint fires (quoting 1%), and the reward is
      176 tokens times the decay factor. */
  lemma WorkedExample(exp: real -> real)
    ensures var m := SellerMetrics(1000.0, 8.0, 92.0, 0.0, 100.0, 6.0);
      && CalculateQualityScore(m).score == 92.0
      && QualityMultiplier(92.0) == 1.76
      && Penalties(m) == 0.0
      && Suggestions(m) == [ImproveDelivery(92.0, 1)]
      && UnroundedReward(exp, m) == 176.0 * TimeDecayFactor(exp, 6.0)
  {
    var m := SellerMetrics(1000.0, 8.0, 92.0, 0.0, 100.0, 6.0);
    assert RawQualityScore(m) == 92.0;
    assert IsCents(92.0);
    Round2OfCents(92.0);
    assert Round(0.9) == 1;
    assert FiredHints(m) == [ImproveDelivery(92.0, 1)];
  }

  // ---------------------------------------------------------------------
  // Projection series for the chart
  // ---------------------------------------------------------------------

  /** How many points the series has: one per whole month from 1 up to months. */
  function ProjectionLength(months: real): (n: nat)
    ensures n as real <= Max(0.0, months) < n as real + 1.0
  {
    if months < 1.0 then 0 else months.Floor
  }

  /** The running total after n months of the same reward, summed one
      month at a time as the loop does. */
  function RunningTotal(monthlyReward: real, n: nat): real {
    if n == 0 then 0.0 else RunningTotal(monthlyReward, n - 1) + monthlyReward
  }

  /** The running total of n months is n times the monthly reward. */
  lemma {:induction false} RunningTotalIsProduct(monthlyReward: real, n: nat)
    ensures RunningTotal(monthlyReward, n) == n as real * monthlyReward
  {
    if n > 0 {
      RunningTotalIsProduct(monthlyReward, n - 1);
    }
  }

  /** With a non-negative monthly reward the running total never goes down. */
  lemma {:induction false} RunningTotalMonotone(monthlyReward: real, j: nat, k: nat)
    requires monthlyReward >= 0.0
    requires j <= k
    ensures RunningTotal(monthlyReward, j) <= RunningTotal(monthlyReward, k)
  {
    if j < k {
      RunningTotalMonotone(monthlyReward, j, k - 1);
    }
  }

  /** The k-th point of the series (0-based): month k + 1, the monthly
      reward, and k + 1 months of reward rounded to cents. */
  function PointAt(monthlyReward: real, k: nat): (p: ProjectionPoint)
    ensures p.month == k + 1 && p.tokens == monthlyReward
  {
    ProjectionPoint(k + 1, monthlyReward, Round2(RunningTotal(monthlyReward, k + 1)))
  }

  /** The cumulative column of point k is (k + 1) months of reward, rounded. */
  lemma PointCumulative(monthlyReward: real, k: nat)
    ensures PointAt(monthlyReward, k).cumulative == Round2((k + 1) as real * monthlyReward)
  {
    RunningTotalIsProduct(monthlyReward, k + 1);
    var t := RunningTotal(monthlyReward, k + 1);
    assert t == (k + 1) as real * monthlyReward;
    assert PointAt(monthlyReward, k).cumulative == Round2(t);
    assert Round2(t) == Round2((k + 1) as real * monthlyReward);
  }

  /** With a non-negative monthly reward the cumulative column never decreases. */
  lemma CumulativeNonDecreasing(monthlyReward: real, j: nat, k: nat)
    requires monthlyReward >= 0.0
    requires j <= k
    ensures PointAt(monthlyReward, j).cumulative <= PointAt(monthlyReward, k).cumulative
  {
    RunningTotalMonotone(monthlyReward, j + 1, k + 1);
    Round2Monotone(RunningTotal(monthlyReward, j + 1), RunningTotal(monthlyReward, k + 1));
  }

  /** The series drawn on the chart: for month i = 1, 2, ... while i <= months,
      the monthly reward and the running total rounded to cents. */
  method GenerateProjectionData(monthlyReward: real, months: real) returns (data: seq<ProjectionPoint>)
    ensures |data| == ProjectionLength(months)
    ensures forall k: nat :: k < |data| ==> data[k] == PointAt(monthlyReward, k)
  {
    data := [];
    var cumulative := 0.0;
    var i := 1;
    while i as real <= months
      invariant 1 <= i
      invariant i == 1 || (i - 1) as real <= months
      invariant |data| == i - 1
      invariant cumulative == RunningTotal(monthlyReward, i - 1)
      invariant forall k: nat :: k < |data| ==> data[k] == PointAt(monthlyReward, k)
      decreases months.Floor - i
    {
      cumulative := cumulative + monthlyReward;
      data := data + [ProjectionPoint(i, monthlyReward, Round2(cumulative))];
      i := i + 1;
    }
  }
}
