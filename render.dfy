/**
 * The chart side of `generateChart` in script.js: fetch the price, build the
 * series, and put a new chart into the single global chart handle after
 * destroying the one it held. The chart library is reduced to an object that
 * remembers its data and whether it has been destroyed.
 */
module Render {
  import opened PriceSource
  import opened Projection

  /** A drawn chart: the data it was built from and whether `destroy()` has been called. */
  class Chart {
    const labels: seq<int>
    const prices: seq<real>
    var destroyed: bool

    constructor (labels: seq<int>, prices: seq<real>)
      ensures this.labels == labels && this.prices == prices && !destroyed
    {
      this.labels := labels;
      this.prices := prices;
      destroyed := false;
    }

    method Destroy()
      modifies this
      ensures destroyed
    {
      destroyed := true;
    }
  }

  /** The global `priceChart` handle, with the charts it has held as a ghost history. */
  class ChartSlot {
    var priceChart: Chart?
    ghost var history: seq<Chart>

    /** The handle is the latest chart and is live; every earlier chart has been destroyed. */
    ghost predicate Valid()
      reads this, history
    {
      (priceChart == null <==> history == []) &&
      (priceChart != null ==> priceChart == history[|history| - 1] && !priceChart.destroyed) &&
      (forall i :: 0 <= i < |history| - 1 ==> history[i].destroyed)
    }

    /** The charts this slot has held that are not destroyed: at most one, the current one. */
    ghost function Live(): (live: set<Chart>)
      reads this, history
      requires Valid()
      ensures live == if priceChart == null then {} else {priceChart}
      ensures |live| <= 1
    {
      var live := set c | c in history && !c.destroyed;
      assert forall c :: c in live ==> c == priceChart by {
        forall c | c in live ensures c == priceChart {
          var j :| 0 <= j < |history| && history[j] == c;
          assert j == |history| - 1;
        }
      }
      assert priceChart != null ==> priceChart in live;
      live
    }

    /** `let priceChart;`: no chart yet. */
    constructor ()
      ensures Valid() && priceChart == null && history == []
    {
      priceChart := null;
      history := [];
    }

    /** `if (priceChart) priceChart.destroy(); priceChart = new Chart(...)`. */
    method Replace(labels: seq<int>, prices: seq<real>)
      requires Valid()
      modifies this, priceChart
      ensures Valid()
      ensures fresh(priceChart) && priceChart.labels == labels && priceChart.prices == prices
      ensures history == old(history) + [priceChart]
      ensures old(priceChart) != null ==> old(priceChart).destroyed
      ensures Live() == {priceChart}
    {
      if priceChart != null {
        priceChart.Destroy();
      }
      priceChart := new Chart(labels, prices);
      history := history + [priceChart];
    }
  }

  /**
   * `generateChart`: take the current price from the lookup's response, build
   * the projection, and replace the displayed chart with one over that series.
   */
  method GenerateChart(slot: ChartSlot, response: Response, scenario: Scenario, startYear: int,
                       pow: (real, real) -> real)
    requires slot.Valid()
    requires scenario.Preset? ==> FetchCurrentPrice(response) > 0.0
    modifies slot, slot.priceChart
    ensures slot.Valid()
    ensures fresh(slot.priceChart)
    ensures slot.history == old(slot.history) + [slot.priceChart]
    ensures old(slot.priceChart) != null ==> old(slot.priceChart).destroyed
    ensures slot.Live() == {slot.priceChart}
    ensures IsSeries(slot.priceChart.labels, slot.priceChart.prices, FetchCurrentPrice(response),
                     GrowthRate(scenario, FetchCurrentPrice(response), YearCount(startYear), pow), startYear)
  {
    var currentPrice := FetchCurrentPrice(response);
    var labels, prices := CalculatePrices(currentPrice, scenario, startYear, pow);
    slot.Replace(labels, prices);
  }

  /**
   * `generateChart` over the lookup as written. When the lookup yields
   * `undefined`, `currentPrice.toLocaleString()` throws before the chart step,
   * so `drawn` is false and the slot, with its old chart still live, is unchanged.
   */
  method GenerateChartAsWritten(slot: ChartSlot, response: Response, scenario: Scenario, startYear: int,
                                pow: (real, real) -> real)
    returns (drawn: bool)
    requires slot.Valid()
    requires scenario.Preset? && FetchCurrentPriceAsWritten(response).Number? ==>
               FetchCurrentPriceAsWritten(response).value > 0.0
    modifies slot, slot.priceChart
    ensures slot.Valid()
    ensures drawn <==> FetchCurrentPriceAsWritten(response).Number?
    ensures !drawn ==>
              slot.priceChart == old(slot.priceChart) && slot.history == old(slot.history) &&
              (slot.priceChart != null ==> !slot.priceChart.destroyed)
    ensures drawn ==>
              fresh(slot.priceChart) &&
              slot.history == old(slot.history) + [slot.priceChart] &&
              (old(slot.priceChart) != null ==> old(slot.priceChart).destroyed) &&
              slot.Live() == {slot.priceChart} &&
              IsSeries(slot.priceChart.labels, slot.priceChart.prices, FetchCurrentPriceAsWritten(response).value,
                       GrowthRate(scenario, FetchCurrentPriceAsWritten(response).value, YearCount(startYear), pow),
                       startYear)
  {
    var fetched := FetchCurrentPriceAsWritten(response);
    if fetched.Undefined? {
      return false;
    }
    var labels, prices := CalculatePrices(fetched.value, scenario, startYear, pow);
    slot.Replace(labels, prices);
    drawn := true;
  }
}
