/**
 * The projection series builder of script.js (`calculatePrices`): pick an annual
 * growth rate from the scenario, then compound the current price once per year
 * from the start year through the horizon year 2045. JavaScript numbers are
 * modelled as exact reals; `Math.pow` with a fractional exponent is the
 * parameter `pow`, and `Math.pow` with the loop's whole-number exponent is the
 * exact `Power` below.
 */
module Projection {
  import opened Wrappers

  /** The last year of every projection. */
  const EndYear: int := 2045

  /** The preset scenarios, each with a fixed long-horizon target price. */
  datatype Preset = Bear | Base | Bull

  /**
   * The scenario selected by the user. `Custom` carries the custom growth
   * percentage as `parseFloat` read it: `None` when the text did not parse (NaN).
   */
  datatype Scenario = Preset(preset: Preset) | Custom(percent: Option<real>)

  /** The target table of `calculatePrices`. */
  function TargetPrice(p: Preset): (target: real)
    ensures p == Bear ==> target == 3000000.0
    ensures p == Base ==> target == 13000000.0
    ensures p == Bull ==> target == 49000000.0
  {
    match p
    case Bear => 3000000.0
    case Base => 13000000.0
    case Bull => 49000000.0
  }

  /** The number of years from `startYear` through `EndYear`; zero or negative when the range is empty. */
  function YearCount(startYear: int): (count: int) {
    EndYear - startYear + 1
  }

  /** Number of entries the loop produces: the year count when positive, zero otherwise. */
  function SeriesLength(startYear: int): (length: nat) {
    if YearCount(startYear) > 0 then YearCount(startYear) else 0
  }

  /** `base` raised to a whole-number power. */
  function Power(base: real, n: nat): (power: real) {
    if n == 0 then 1.0 else base * Power(base, n - 1)
  }

  /**
   * The annual growth rate. Custom: the percentage over 100, or 0 when it did
   * not parse. Preset: the compound annual rate that carries `currentPrice` to
   * the target in `years - 1` steps, `pow(target / currentPrice, 1 / (years - 1)) - 1`.
   * With `years == 1` that exponent divides by zero; the rate is then taken as 0,
   * which SingleYearIgnoresRate shows cannot change the series.
   */
  function GrowthRate(scenario: Scenario, currentPrice: real, years: int, pow: (real, real) -> real): (rate: real)
    requires scenario.Preset? ==> currentPrice > 0.0
  {
    match scenario
    case Custom(None) => 0.0
    case Custom(Some(percent)) => percent / 100.0
    case Preset(p) =>
      if years == 1 then 0.0
      else pow(TargetPrice(p) / currentPrice, 1.0 / (years - 1) as real) - 1.0
  }

  /**
   * What the rate choice yields in each case: 0 for an unparsed custom input,
   * a hundredth of a parsed percentage, and for a preset a rate whose growth
   * factor `1 + rate` is the `(years - 1)`-th root `pow` gives for the ratio of
   * target to current price (0 when `years` is 1).
   */
  lemma GrowthRateChoice(scenario: Scenario, currentPrice: real, years: int, pow: (real, real) -> real)
    requires scenario.Preset? ==> currentPrice > 0.0
    ensures scenario == Custom(None) ==> GrowthRate(scenario, currentPrice, years, pow) == 0.0
    ensures scenario.Custom? && scenario.percent.Some? ==>
              GrowthRate(scenario, currentPrice, years, pow) * 100.0 == scenario.percent.value
    ensures scenario.Preset? && years != 1 ==>
              1.0 + GrowthRate(scenario, currentPrice, years, pow)
              == pow(TargetPrice(scenario.preset) / currentPrice, 1.0 / (years - 1) as real)
    ensures scenario.Preset? && years == 1 ==> GrowthRate(scenario, currentPrice, years, pow) == 0.0
  {
  }

  /** The price at offset `i` from the start year: `currentPrice * (1 + rate)^i`. */
  function Projected(currentPrice: real, rate: real, i: nat): (price: real)
    ensures i == 0 ==> price == currentPrice
  {
    currentPrice * Power(1.0 + rate, i)
  }

  /**
   * `labels` and `prices` are the projection from `startYear` at `rate`: one
   * entry per year through `EndYear`, the labels counting up from `startYear`,
   * and the price at offset `i` compounded `i` times.
   */
  predicate IsSeries(labels: seq<int>, prices: seq<real>, currentPrice: real, rate: real, startYear: int) {
    |labels| == SeriesLength(startYear) && |prices| == SeriesLength(startYear) &&
    (forall i :: 0 <= i < |labels| ==> labels[i] == startYear + i) &&
    (forall i :: 0 <= i < |prices| ==> prices[i] == Projected(currentPrice, rate, i))
  }

  /**
   * `calculatePrices`: the rate choice, then a counting loop that pushes one
   * year label and one price per year.
   */
  method CalculatePrices(currentPrice: real, scenario: Scenario, startYear: int, pow: (real, real) -> real)
    returns (labels: seq<int>, prices: seq<real>)
    requires scenario.Preset? ==> currentPrice > 0.0
    ensures IsSeries(labels, prices, currentPrice, GrowthRate(scenario, currentPrice, YearCount(startYear), pow), startYear)
    ensures startYear <= EndYear ==>
              |labels| == |prices| == EndYear - startYear + 1 &&
              labels[0] == startYear && labels[|labels| - 1] == EndYear &&
              prices[0] == currentPrice
    ensures startYear > EndYear ==> labels == [] && prices == []
    ensures forall i :: 0 <= i < |prices| - 1 ==>
              prices[i + 1] == prices[i] * (1.0 + GrowthRate(scenario, currentPrice, YearCount(startYear), pow))
  {
    var years := YearCount(startYear);
    labels, prices := [], [];
    var annualGrowthRate := GrowthRate(scenario, currentPrice, years, pow);
    var i := 0;
    while i < years
      invariant 0 <= i <= SeriesLength(startYear)
      invariant |labels| == i && |prices| == i
      invariant forall k :: 0 <= k < i ==> labels[k] == startYear + k
      invariant forall k :: 0 <= k < i ==> prices[k] == Projected(currentPrice, annualGrowthRate, k)
    {
      var year := startYear + i;
      var price := currentPrice * Power(1.0 + annualGrowthRate, i);
      assert price == Projected(currentPrice, annualGrowthRate, i);
      labels := labels + [year];
      prices := prices + [price];
      i := i + 1;
    }
    SeriesEnds(labels, prices, currentPrice, annualGrowthRate, startYear);
    SeriesSteps(labels, prices, currentPrice, annualGrowthRate, startYear);
  }

  /** A series runs from the start year to `EndYear` and opens at the current price; it is empty past `EndYear`. */
  lemma SeriesEnds(labels: seq<int>, prices: seq<real>, currentPrice: real, rate: real, startYear: int)
    requires IsSeries(labels, prices, currentPrice, rate, startYear)
    ensures startYear <= EndYear ==>
              |labels| == |prices| == EndYear - startYear + 1 &&
              labels[0] == startYear && labels[|labels| - 1] == EndYear &&
              prices[0] == currentPrice
    ensures startYear > EndYear ==> labels == [] && prices == []
  {
  }

  /** In a series, each price after the first is its predecessor times `1 + rate`. */
  lemma SeriesSteps(labels: seq<int>, prices: seq<real>, currentPrice: real, rate: real, startYear: int)
    requires IsSeries(labels, prices, currentPrice, rate, startYear)
    ensures forall i :: 0 <= i < |prices| - 1 ==> prices[i + 1] == prices[i] * (1.0 + rate)
  {
    forall k | 0 <= k < |prices| - 1
      ensures prices[k + 1] == prices[k] * (1.0 + rate)
    {
      ProjectedStep(currentPrice, rate, k);
    }
  }

  /** Each year's price is the previous year's times `1 + rate`. */
  lemma ProjectedStep(currentPrice: real, rate: real, i: nat)
    ensures Projected(currentPrice, rate, i + 1) == Projected(currentPrice, rate, i) * (1.0 + rate)
  {
  }

  /** One to any power is one. */
  lemma {:induction false} PowerOfOne(n: nat)
    ensures Power(1.0, n) == 1.0
  {
    if n > 0 {
      PowerOfOne(n - 1);
    }
  }

  /** A positive base has positive powers. */
  lemma {:induction false} PowerPositive(base: real, n: nat)
    requires base > 0.0
    ensures Power(base, n) > 0.0
  {
    if n > 0 {
      PowerPositive(base, n - 1);
    }
  }

  /** At rate 0 the projection is flat at the current price. */
  lemma FlatAtZeroRate(currentPrice: real, i: nat)
    ensures Projected(currentPrice, 0.0, i) == currentPrice
  {
    PowerOfOne(i);
  }

  /** A custom input that does not parse gives rate 0, so every year's price is the current price. */
  lemma UnparsedCustomIsFlat(currentPrice: real, years: int, pow: (real, real) -> real, i: nat)
    ensures GrowthRate(Custom(None), currentPrice, years, pow) == 0.0
    ensures Projected(currentPrice, GrowthRate(Custom(None), currentPrice, years, pow), i) == currentPrice
  {
    FlatAtZeroRate(currentPrice, i);
  }

  /** A parsed custom percentage `v` compounds at `v / 100` a year. */
  lemma CustomCompounds(currentPrice: real, percent: real, years: int, pow: (real, real) -> real, i: nat)
    ensures Projected(currentPrice, GrowthRate(Custom(Some(percent)), currentPrice, years, pow), i)
            == currentPrice * Power(1.0 + percent / 100.0, i)
  {
  }

  /** With a positive current price and a rate above -100%, every projected price is positive. */
  lemma ProjectedPositive(currentPrice: real, rate: real, i: nat)
    requires currentPrice > 0.0 && rate > -1.0
    ensures Projected(currentPrice, rate, i) > 0.0
  {
    PowerPositive(1.0 + rate, i);
  }

  /** With a non-negative current price and a non-negative rate, the projection never decreases. */
  lemma {:induction false} ProjectedNonDecreasing(currentPrice: real, rate: real, i: nat, j: nat)
    requires currentPrice >= 0.0 && rate >= 0.0
    requires i <= j
    ensures Projected(currentPrice, rate, i) <= Projected(currentPrice, rate, j)
  {
    if i < j {
      ProjectedNonDecreasing(currentPrice, rate, i, j - 1);
      ProjectedStep(currentPrice, rate, j - 1);
      var prev := Projected(currentPrice, rate, j - 1);
      PowerPositive(1.0 + rate, j - 1);
      assert prev >= 0.0;
      assert prev * (1.0 + rate) == prev + prev * rate;
    }
  }

  /**
   * The defining law of the preset rate: if `pow` computes the real
   * `(years - 1)`-th root, the last projected price is the scenario's target.
   */
  lemma PresetReachesTarget(p: Preset, currentPrice: real, years: int, pow: (real, real) -> real)
    requires currentPrice > 0.0 && years >= 2
    requires Power(pow(TargetPrice(p) / currentPrice, 1.0 / (years - 1) as real), years - 1) == TargetPrice(p) / currentPrice
    ensures Projected(currentPrice, GrowthRate(Preset(p), currentPrice, years, pow), years - 1) == TargetPrice(p)
  {
  }

  /** A 10% custom rate from 1000 over the last three years gives 1000, 1100 and 1210. */
  lemma TenPercentExample(labels: seq<int>, prices: seq<real>, pow: (real, real) -> real)
    requires IsSeries(labels, prices, 1000.0, GrowthRate(Custom(Some(10.0)), 1000.0, YearCount(2043), pow), 2043)
    ensures labels == [2043, 2044, 2045] && prices == [1000.0, 1100.0, 1210.0]
  {
    assert Power(1.1, 2) == 1.21;
  }

  /**
   * When `pow` computes exact roots for the three presets, their 2045 prices
   * keep the order of the targets: bear below base below bull.
   */
  lemma PresetEndsOrdered(currentPrice: real, years: int, pow: (real, real) -> real)
    requires currentPrice > 0.0 && years >= 2
    requires forall p: Preset ::
               Power(pow(TargetPrice(p) / currentPrice, 1.0 / (years - 1) as real), years - 1) == TargetPrice(p) / currentPrice
    ensures Projected(currentPrice, GrowthRate(Preset(Bear), currentPrice, years, pow), years - 1)
            < Projected(currentPrice, GrowthRate(Preset(Base), currentPrice, years, pow), years - 1)
            < Projected(currentPrice, GrowthRate(Preset(Bull), currentPrice, years, pow), years - 1)
  {
    PresetReachesTarget(Bear, currentPrice, years, pow);
    PresetReachesTarget(Base, currentPrice, years, pow);
    PresetReachesTarget(Bull, currentPrice, years, pow);
  }

  /**
   * When the start year is the horizon year the series is the single point
   * (`EndYear`, `currentPrice`) whatever the rate, so the rate chosen for the
   * degenerate preset case is unobservable.
   */
  lemma SingleYearIgnoresRate(labels: seq<int>, prices: seq<real>, currentPrice: real, rate: real)
    requires IsSeries(labels, prices, currentPrice, rate, EndYear)
    ensures labels == [EndYear] && prices == [currentPrice]
  {
  }

  /** The inputs determine the series: two results for the same inputs are equal. */
  lemma SeriesDetermined(labels1: seq<int>, prices1: seq<real>, labels2: seq<int>, prices2: seq<real>,
                         currentPrice: real, rate: real, startYear: int)
    requires IsSeries(labels1, prices1, currentPrice, rate, startYear)
    requires IsSeries(labels2, prices2, currentPrice, rate, startYear)
    ensures labels1 == labels2 && prices1 == prices2
  {
  }
}
