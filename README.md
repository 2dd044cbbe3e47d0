# Seller token reward engine, modelled in Dafny

This project models the reward engine of a marketplace token calculator
(`src/utils/tokenomics.ts`). The engine takes one month of a seller's metrics:
sales volume, return rate, on-time delivery rate, cancellation rate, inventory
accuracy and months on the platform. From them it computes:

- a quality score, a weighted sum of four sub-scores in which the return and
  cancellation rates are inverted and clipped at 0;
- a time-decay factor `max(0.1, exp(-0.02 * months))`;
- a base emission of 0.1 token per order times the decay;
- a quality multiplier that is exactly 0 below a score of 50 (the gate) and
  then runs linearly from 0.5x to 2.0x;
- penalties of 5 tokens per return-rate point above 15% and 3 tokens per
  cancellation-rate point above 10%;
- a net monthly reward floored at 0, with 6- and 12-month projections.

Every reported figure is rounded to cents. The engine also builds an ordered
list of improvement hints, and the cumulative series that the projection
chart draws.

Two modules make up the model:

- `JsMath` (`js_math.dfy`) models `Math.max`, `Math.round` and the idiom
  `Math.round(x * 100) / 100`, over exact reals. `Math.round` is
  `Floor(x + 1/2)`, so halves go toward +infinity. Rounding to cents is
  proved monotone, within half a cent of its input, and the identity on
  whole cents.
- `Tokenomics` (`tokenomics.dfy`) holds the records (`SellerMetrics`,
  `Breakdown`, `CalculationResult`, `ProjectionPoint`), the constants and
  every step of the pipeline. The pure steps are functions. The three steps
  that the source writes as mutable accumulation are methods:
  - `CalculatePenalties` builds the total with `+=` under two conditions;
  - `GenerateSuggestions` pushes into a list and checks its length;
  - `GenerateProjectionData` is a `for` loop that keeps a running total.

  Each method is proved equal to a reference function (`Penalties`,
  `Suggestions`, `PointAt`), and the pure pipeline uses that function.

`Math.exp` is a parameter `exp: real -> real` of the functions that need it.
Facts about decay over time are proved for any `exp` that is non-decreasing,
and where needed for one with `exp(0) == 1`.

## Model

| member | source | states |
|---|---|---|
| `JsMath.Max` | src/utils/tokenomics.ts:44 | the result is at least both arguments and is one of them |
| `JsMath.Round` | src/utils/tokenomics.ts:146 | `Math.round`: the unique integer n with x - 1/2 < n <= x + 1/2 (ties go up) |
| `JsMath.Round2` | src/utils/tokenomics.ts:70 | the cent-rounded value is a whole number of cents within half a cent of x |
| `JsMath.Round2Monotone` | src/utils/tokenomics.ts:70 | rounding to cents never reverses the order of two numbers |
| `JsMath.Round2OfCents` | src/utils/tokenomics.ts:209-215 | a figure that already is whole cents is unchanged by rounding |
| `JsMath.Round2Within` | src/utils/tokenomics.ts:70 | rounding keeps a value inside any interval whose ends are whole cents (range preservation) |
| `JsMath.Round2NonNegative` | src/utils/tokenomics.ts:209-215 | rounding a non-negative figure never makes it negative |
| `Tokenomics.ReturnRateScore` | src/utils/tokenomics.ts:44 | the inverted return sub-score is never negative; it is 100 - 2r up to r = 50 and 0 from there |
| `Tokenomics.CancellationScore` | src/utils/tokenomics.ts:50 | the inverted cancellation sub-score is never negative; it is 100 - 3c up to 3c = 100 and 0 from there |
| `Tokenomics.CalculateQualityScore` | src/utils/tokenomics.ts:39-78 | the score is whole cents within half a cent of the weighted sum; the two inverted breakdown entries are non-negative |
| `Tokenomics.SameRatesSameScore` | src/utils/tokenomics.ts:39-78 | the score depends only on the four rates, not on volume or tenure |
| `Tokenomics.WeightsSumToOne` | src/utils/tokenomics.ts:56-61 | the weights 0.35, 0.30, 0.20 and 0.15 sum to 1 (four equal sub-scores give that score) |
| `Tokenomics.QualityScoreBounds` | src/utils/tokenomics.ts:63-70 | with all four rates in 0..100, the weighted sum and the rounded score both lie in 0..100 |
| `Tokenomics.QualityScoreMonotone` | src/utils/tokenomics.ts:43-70 | for any two records, more returns or cancellations never raise the score and better delivery or inventory never lower it, before and after rounding |
| `Tokenomics.TimeDecayFactor` | src/utils/tokenomics.ts:84-87 | the decay factor is at least 0.1 and at least exp(-0.02 * months), and is one of the two |
| `Tokenomics.TimeDecayNonIncreasing` | src/utils/tokenomics.ts:84-87 | for a non-decreasing exp, a longer tenure never gives a larger decay factor |
| `Tokenomics.TimeDecayInUnitInterval` | src/utils/tokenomics.ts:84-87 | for a non-decreasing exp with exp(0) = 1, a non-negative tenure gives a decay factor in [0.1, 1] |
| `Tokenomics.BaseEmission` | src/utils/tokenomics.ts:130-136 | emission is non-negative for a non-negative volume and decay; with a positive decay it is positive exactly when the volume is |
| `Tokenomics.BaseEmissionMonotone` | src/utils/tokenomics.ts:130-136 | more orders or a larger decay factor never emit fewer tokens |
| `Tokenomics.QualityMultiplier` | src/utils/tokenomics.ts:93-104 | exactly 0 below a score of 50; at least 0.5 from 50 on; at most 2.0 up to 100 |
| `Tokenomics.QualityMultiplierEndpoints` | src/utils/tokenomics.ts:98-103 | the multiplier is 0.5 at the gate and 2.0 at a score of 100 |
| `Tokenomics.QualityMultiplierMonotone` | src/utils/tokenomics.ts:93-104 | a higher score never gives a lower multiplier, including across the gate |
| `Tokenomics.QualityMultiplierLine` | src/utils/tokenomics.ts:101-103 | from the gate on, the multiplier is 0.5 + 1.5 * (q - 50) / 50 |
| `Tokenomics.Penalties` | src/utils/tokenomics.ts:109-125 | the penalties are non-negative, and 0 exactly when returns are at most 15 and cancellations at most 10 (the thresholds incur nothing) |
| `Tokenomics.CalculatePenalties` | src/utils/tokenomics.ts:109-125 | the two-branch accumulator equals 5 * max(0, r - 15) + 3 * max(0, c - 10) |
| `Tokenomics.PenaltiesMonotone` | src/utils/tokenomics.ts:109-125 | higher return or cancellation rates never lower the penalties |
| `Tokenomics.FiredHints` | src/utils/tokenomics.ts:144-166 | at most four hints; none exactly when no rule fires; never the fallback |
| `Tokenomics.Suggestions` | src/utils/tokenomics.ts:141-173 | between 1 and 4 messages; the list is the lone fallback exactly when no rule fires |
| `Tokenomics.GenerateSuggestions` | src/utils/tokenomics.ts:141-173 | the push-and-check-length builder yields exactly the `Suggestions` list |
| `Tokenomics.SuggestionsCharacterized` | src/utils/tokenomics.ts:141-173 | each rule's hint (with its payload) is present exactly when its rule fires; the fallback exactly when none fires; nothing else appears; order returns, delivery, cancellations, inventory |
| `Tokenomics.HintImpactsNonNegative` | src/utils/tokenomics.ts:146-158 | every impact figure a fired hint quotes is non-negative |
| `Tokenomics.CancellationsHintOverstatesCut` | src/utils/tokenomics.ts:156-160 | at 8% cancellations, the hint quotes a 9-token penalty cut while the penalties would not change |
| `Tokenomics.CancellationsHintOverstatesByFifteen` | src/utils/tokenomics.ts:156-160 | from 10% cancellations on, the quoted cut is always 15 tokens more than the real one |
| `Tokenomics.CorrectedCancellationsHint` | src/utils/tokenomics.ts:156-160 | the corrected cut is non-negative and 0 at or below the 10% threshold |
| `Tokenomics.CorrectedCancellationsHintExact` | src/utils/tokenomics.ts:156-160 | the corrected cut is the rounded drop in penalties from going down to 5% |
| `Tokenomics.NetMonthlyReward` | src/utils/tokenomics.ts:195-198 | the reward is never negative and never below emission x multiplier - penalties, and is one of the two |
| `Tokenomics.NetMonthlyRewardMonotone` | src/utils/tokenomics.ts:195-198 | the net reward grows with a non-negative emission and multiplier and shrinks with the penalties |
| `Tokenomics.CalculateTokenRewards` | src/utils/tokenomics.ts:178-219 | the reported reward, penalties and both projections are non-negative; decay >= 0.1; 1..4 suggestions; the score is the scorer's |
| `Tokenomics.ReportedRewards` | src/utils/tokenomics.ts:195-215 | the reported reward and projections are the one unrounded reward (times 1, 6, 12), each rounded once |
| `Tokenomics.QualityGate` | src/utils/tokenomics.ts:189-215 | a score below 50 gives multiplier 0 and a reward and both projections of exactly 0, whatever the volume and penalties |
| `Tokenomics.ProjectionsConsistent` | src/utils/tokenomics.ts:200-215 | projections are round2(6x) and round2(12x) of the unrounded reward x; reward <= 6-month <= 12-month; each is within 3.5 and 6.5 cents of 6 and 12 times the reported reward |
| `Tokenomics.ReportedRewardMonotone` | src/utils/tokenomics.ts:209 | the reported reward keeps the order of the unrounded rewards |
| `Tokenomics.NegativeVolumeEarnsNothing` | src/utils/tokenomics.ts:134-198 | a negative sales volume gives an unrounded reward of exactly 0 |
| `Tokenomics.RewardMonotoneInQuality` | src/utils/tokenomics.ts:178-198 | for any volume, rates at least as good never earn fewer tokens (unrounded and reported) |
| `Tokenomics.RewardMonotoneInVolume` | src/utils/tokenomics.ts:183-198 | for any volumes, more orders never earn fewer tokens (unrounded and reported) |
| `Tokenomics.RewardNonIncreasingInTenure` | src/utils/tokenomics.ts:183-198 | for a non-decreasing exp and any volume, a longer tenure never earns more tokens |
| `Tokenomics.RewardFollowsDecay` | src/utils/tokenomics.ts:183-198 | for any volume, a tenure with a decay factor no larger never earns more tokens (unrounded and reported) |
| `Tokenomics.WorkedExample` | src/utils/tokenomics.ts:178-205 | for 1000 orders, 8% returns, 92% on time, 0% cancellations, 100% inventory and 6 months: score 92, multiplier 1.76, no penalties, only the delivery hint (quoting 1%), reward 176 x decay |
| `Tokenomics.ProjectionLength` | src/utils/tokenomics.ts:231 | the loop `i = 1 .. i <= months` runs max(0, floor(months)) times |
| `Tokenomics.RunningTotalIsProduct` | src/utils/tokenomics.ts:229-232 | the running total built by adding the monthly reward n times is exactly n times it |
| `Tokenomics.RunningTotalMonotone` | src/utils/tokenomics.ts:229-232 | with a non-negative monthly reward, the running total never goes down from one month to a later one |
| `Tokenomics.PointAt` | src/utils/tokenomics.ts:233-237 | point k is month k + 1 and carries the monthly reward |
| `Tokenomics.PointCumulative` | src/utils/tokenomics.ts:236 | the cumulative column of point k is round2((k + 1) x monthly reward) |
| `Tokenomics.CumulativeNonDecreasing` | src/utils/tokenomics.ts:229-237 | with a non-negative monthly reward, the cumulative column never decreases |
| `Tokenomics.GenerateProjectionData` | src/utils/tokenomics.ts:224-241 | the loop returns max(0, floor(months)) records; record k is `PointAt(m, k)`: month k + 1, tokens m, and the running total of k + 1 months rounded to cents |

## Left out

- The value of `Math.exp` (src/utils/tokenomics.ts:86) is not modelled. It is a
  parameter, so a result that needs exp to be monotone or exp(0) = 1 says so.
- IEEE-754 behaviour is not modelled: NaN, infinities, negative zero and binary
  rounding error. All numbers are exact reals. In particular, the running total
  in `generateProjectionData` is a float sum in the source. Here it is an exact
  sum, which `RunningTotalIsProduct` proves equal to i x m.
- The message texts are not modelled: their wording, `toFixed(1)` formatting and
  language. A `Suggestion` records which rule fired, the metric's value and the
  `Math.round` figure the message quotes.
- The `months = 12` default of `generateProjectionData` is not modelled. Its one
  caller, the projection chart, always passes 12.
- The React components and `App.tsx` are not part of this model. They only
  render. This includes the score-to-label thresholds of the score card and the
  `ratings` field that the form and the demo metrics use but `SellerMetrics` does
  not declare.
- No shared-pool or market-share allocation variant is modelled, because the
  engine's code has none.
- TimeDecayInUnitInterval: the decay factor is shown to lie in [0.1, 1] only for
  a non-decreasing exp with exp(0) = 1. The code alone guarantees only the 0.1
  floor.
- TimeDecayNonIncreasing: the decay factor is shown to fall with tenure only for
  a non-decreasing exp.
- RewardNonIncreasingInTenure: stated for a non-decreasing exp, for the same
  reason as `TimeDecayNonIncreasing`.
- The total quality score is not clamped. Four kinds of out-of-range rate push
  it outside 0..100: a negative return rate, a negative cancellation rate, and
  delivery or inventory below 0 or above 100. The return and cancellation
  sub-scores are clipped only at 0 (src/utils/tokenomics.ts:44, :50), so a
  return rate of -50 gives a sub-score of 200. A score above 100 then gives a
  multiplier above 2.0. `QualityScoreBounds` therefore requires all four rates
  to lie in 0..100.
- The 6- and 12-month projections multiply the unrounded monthly reward, as the
  code does. They are not computed from the rounded figure shown to the seller.
  `ProjectionsConsistent` bounds the difference between the two.
- Facts about the code that a reader might not expect: the total score is not
  clamped; the decay factor is only floored at 0.1; the projections use the
  unrounded reward; the worked record in `WorkedExample` scores 92.

## Findings

| source | as written | input that shows it | evidently intended | confidence | as-written member | corrected member |
|---|---|---|---|---|---|---|
| src/utils/tokenomics.ts:156-160 | the cancellations hint says that cutting cancellations to 5% reduces penalties by round((c - 5) * 3) tokens, but penalties only accrue above 10% (:119-122) | cancellationRate = 8: the hint quotes 9 tokens, while the penalties are 0 before and after; from 10% on, the quoted cut is always 15 tokens too high | quote the real drop in penalties, round(3 * max(0, c - 10)) | medium; not executed | `Tokenomics.CancellationsHintOverstatesCut` | `Tokenomics.CorrectedCancellationsHintExact` |

The suggestion list (`Suggestions`, `GenerateSuggestions`) keeps the figure the
code emits, because that is what sellers see. `CorrectedCancellationsHint` is
the corrected figure, and `CorrectedCancellationsHintExact` proves it equals the
penalty saving.
