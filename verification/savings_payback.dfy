/**
 * The figures the savings-and-payback panel derives from a resolved estimate:
 * savings re-priced at the slider's price, the payback and ten-year net at
 * that price, the eleven-year timeline at the configured price, and when the
 * payback reads "N/A".
 */
module SavingsPayback {
  import opened Wrappers
  import opened CalculatorTypes
  import opened Calculations

  /** `adjustedSavings`: each kWh bound re-priced at the slider price. */
  function AdjustedSavings(savings: SavingsData, sensitivityPrice: real): (r: Range)
    ensures r.lower == savings.annualEnergySavingsKwh.lower * sensitivityPrice
    ensures r.upper == savings.annualEnergySavingsKwh.upper * sensitivityPrice
  {
    Range(savings.annualEnergySavingsKwh.lower * sensitivityPrice,
          savings.annualEnergySavingsKwh.upper * sensitivityPrice)
  }

  /** `paybackPeriod`: the payback of the total cost against the adjusted savings, lower bound first. */
  function PaybackPeriod(savings: SavingsData, cost: CostBreakdown, sensitivityPrice: real): (p: Payback)
    ensures p == CalculatePaybackPeriod(cost.totalCost, AdjustedSavings(savings, sensitivityPrice).lower,
                                        AdjustedSavings(savings, sensitivityPrice).upper)
  {
    var adjusted := AdjustedSavings(savings, sensitivityPrice);
    CalculatePaybackPeriod(cost.totalCost, adjusted.lower, adjusted.upper)
  }

  /** `tenYearSavings`: ten years of adjusted savings less the total cost. */
  function TenYearSavings(savings: SavingsData, cost: CostBreakdown, sensitivityPrice: real): (r: Range)
    ensures r.lower + cost.totalCost == AdjustedSavings(savings, sensitivityPrice).lower * 10.0
    ensures r.upper + cost.totalCost == AdjustedSavings(savings, sensitivityPrice).upper * 10.0
  {
    var adjusted := AdjustedSavings(savings, sensitivityPrice);
    Range(adjusted.lower * 10.0 - cost.totalCost, adjusted.upper * 10.0 - cost.totalCost)
  }

  /** The cumulative net position after `year` years at the configured price. */
  function Cumulative(savings: SavingsData, cost: CostBreakdown, year: nat): Range {
    Range(savings.annualCostSavings.lower * year as real - cost.totalCost,
          savings.annualCostSavings.upper * year as real - cost.totalCost)
  }

  /** The timeline: one cumulative position per year, years 0 to 10. */
  function Timeline(savings: SavingsData, cost: CostBreakdown): (t: seq<Range>)
    ensures |t| == 11
    ensures t[0] == Range(-cost.totalCost, -cost.totalCost)
    ensures forall year :: 0 <= year < |t| ==> t[year] == Cumulative(savings, cost, year)
  {
    seq(11, year requires 0 <= year => Cumulative(savings, cost, year))
  }

  /** The value printed under a year: minus the total cost for year 0, else the upper position. */
  function TimelineValue(savings: SavingsData, cost: CostBreakdown, year: nat): real
    requires year <= 10
  {
    if year == 0 then -cost.totalCost else Cumulative(savings, cost, year).upper
  }

  /** With a non-negative annual saving, the net position never falls from one year to a later one. */
  lemma TimelineMonotone(savings: SavingsData, cost: CostBreakdown, i: nat, j: nat)
    requires i <= j <= 10
    ensures savings.annualCostSavings.lower >= 0.0 ==> Timeline(savings, cost)[i].lower <= Timeline(savings, cost)[j].lower
    ensures savings.annualCostSavings.upper >= 0.0 ==> Timeline(savings, cost)[i].upper <= Timeline(savings, cost)[j].upper
  {
    var t := Timeline(savings, cost);
    var lo, up := savings.annualCostSavings.lower, savings.annualCostSavings.upper;
    assert t[j].lower - t[i].lower == lo * (j - i) as real;
    assert t[j].upper - t[i].upper == up * (j - i) as real;
  }

  /** At the configured price the re-priced savings are the record's own cost savings. */
  lemma AdjustedAtConfiguredPrice(row: Row, price: real)
    ensures AdjustedSavings(CalculateSavingsFromCsv(row, price), price)
            == CalculateSavingsFromCsv(row, price).annualCostSavings
  {
  }

  /**
   * At the configured price, the slider changes nothing: the payback is that of
   * the record's cost savings and the ten-year net is the timeline's year 10.
   */
  lemma SensitivityIdentity(row: Row, price: real, cost: CostBreakdown)
    ensures var savings := CalculateSavingsFromCsv(row, price);
            PaybackPeriod(savings, cost, price)
            == CalculatePaybackPeriod(cost.totalCost, savings.annualCostSavings.lower, savings.annualCostSavings.upper)
    ensures var savings := CalculateSavingsFromCsv(row, price);
            TenYearSavings(savings, cost, price) == Timeline(savings, cost)[10]
  {
    var savings := CalculateSavingsFromCsv(row, price);
    AdjustedAtConfiguredPrice(row, price);
    assert Timeline(savings, cost)[10] == Cumulative(savings, cost, 10);
  }

  /** The adjusted block is shown only for a slider price other than the configured one. */
  predicate ShowsAdjusted(sensitivityPrice: real, electricityPrice: real) {
    sensitivityPrice != electricityPrice
  }

  // ---------------------------------------------------------------------
  // The payback text
  // ---------------------------------------------------------------------

  /** The payback text as the panel's condition produces it: "N/A", or both sides printed. */
  datatype ShownPayback = NotApplicable | Shown(lower: Extended, upper: Extended)

  /** "N/A" exactly when the lower side is infinite; the upper side is printed whatever it is. */
  function ShowPayback(p: Payback): (t: ShownPayback)
    ensures t.NotApplicable? <==> p.lower.Infinity?
    ensures t.Shown? ==> t.lower == p.lower && t.upper == p.upper
  {
    if p.lower.Infinity? then NotApplicable else Shown(p.lower, p.upper)
  }

  /** With a non-positive lower saving and a positive upper one the panel prints an infinite upper side. */
  lemma ShowPaybackPrintsInfinity()
    ensures ShowPayback(CalculatePaybackPeriod(8000.0, 0.0, 1000.0)) == Shown(Finite(8.0), Infinity)
  {
    RoundTenthExact(80);
  }

  /** Whenever the lower saving is at most 0 and the upper is positive, the printed upper side is `Infinity`. */
  lemma ShowPaybackMissesInfiniteUpper(totalCost: real, lower: real, upper: real)
    requires lower <= 0.0 < upper
    ensures var t := ShowPayback(CalculatePaybackPeriod(totalCost, lower, upper));
            t.Shown? && t.lower.Finite? && t.upper.Infinity?
  {
  }

  /** The intended payback text: "N/A" whenever either side is infinite, otherwise two numbers. */
  datatype PaybackText = NotApplicableText | Years(lower: real, upper: real)

  function PaybackTextOf(p: Payback): (t: PaybackText)
    ensures t.NotApplicableText? <==> p.lower.Infinity? || p.upper.Infinity?
    ensures t.Years? ==> p == Payback(Finite(t.lower), Finite(t.upper))
  {
    if p.lower.Infinity? || p.upper.Infinity? then NotApplicableText else Years(p.lower.value, p.upper.value)
  }

  /** "N/A" exactly when some savings bound is zero or negative; otherwise both periods are numbers. */
  lemma PaybackTextNotApplicable(totalCost: real, lower: real, upper: real)
    ensures PaybackTextOf(CalculatePaybackPeriod(totalCost, lower, upper)).NotApplicableText?
            <==> lower <= 0.0 || upper <= 0.0
  {
  }

  // ---------------------------------------------------------------------
  // The panel
  // ---------------------------------------------------------------------

  /** The re-priced figures shown when the slider moves away from the configured price. */
  datatype AdjustedBlock = AdjustedBlock(savings: Range, payback: ShownPayback)

  /** What the panel shows for an estimate. */
  datatype Panel = Panel(
    payback: ShownPayback,
    tenYear: Range,
    adjusted: Option<AdjustedBlock>,
    timeline: seq<real>)

  /**
   * The panel: nothing while loading or without an estimate; otherwise the
   * payback text under the panel's own "N/A" condition and the ten-year net,
   * both at the slider price, the adjusted block when that price differs from
   * the configured one, and the eleven timeline values.
   */
  function SavingsPanel(isLoading: bool, savingsData: Option<SavingsData>, cost: CostBreakdown,
                        electricityPrice: real, sensitivityPrice: real): (r: Option<Panel>)
    ensures r.None? <==> isLoading || savingsData.None?
    ensures r.Some? ==> r.value.payback == ShowPayback(PaybackPeriod(savingsData.value, cost, sensitivityPrice))
    ensures r.Some? ==> (r.value.payback.NotApplicable? <==> AdjustedSavings(savingsData.value, sensitivityPrice).upper <= 0.0)
    ensures r.Some? ==> r.value.tenYear == TenYearSavings(savingsData.value, cost, sensitivityPrice)
    ensures r.Some? ==> (r.value.adjusted.Some? <==> ShowsAdjusted(sensitivityPrice, electricityPrice))
    ensures r.Some? && r.value.adjusted.Some? ==>
              r.value.adjusted.value == AdjustedBlock(AdjustedSavings(savingsData.value, sensitivityPrice), r.value.payback)
    ensures r.Some? ==> r.value.timeline == TimelineValues(savingsData.value, cost)
    ensures r.Some? ==> |r.value.timeline| == 11 && r.value.timeline[0] == -cost.totalCost
  {
    if isLoading || savingsData.None? then None
    else
      var savings := savingsData.value;
      var payback := ShowPayback(PaybackPeriod(savings, cost, sensitivityPrice));
      Some(Panel(
        payback,
        TenYearSavings(savings, cost, sensitivityPrice),
        if ShowsAdjusted(sensitivityPrice, electricityPrice)
        then Some(AdjustedBlock(AdjustedSavings(savings, sensitivityPrice), payback))
        else None,
        TimelineValues(savings, cost)))
  }

  /**
   * The panel's payback text differs from the intended one exactly when the
   * adjusted lower saving is at most 0 and the upper one is positive; where
   * the intended text gives two numbers, the panel prints the same two.
   */
  lemma SavingsPanelPaybackAgainstIntended(savingsData: Option<SavingsData>, cost: CostBreakdown,
                                           electricityPrice: real, sensitivityPrice: real)
    requires savingsData.Some?
    ensures var shown := SavingsPanel(false, savingsData, cost, electricityPrice, sensitivityPrice).value.payback;
            var intended := PaybackTextOf(PaybackPeriod(savingsData.value, cost, sensitivityPrice));
            var a := AdjustedSavings(savingsData.value, sensitivityPrice);
            (shown.NotApplicable? != intended.NotApplicableText?) <==> a.lower <= 0.0 < a.upper
    ensures var shown := SavingsPanel(false, savingsData, cost, electricityPrice, sensitivityPrice).value.payback;
            var intended := PaybackTextOf(PaybackPeriod(savingsData.value, cost, sensitivityPrice));
            intended.Years? ==> shown == Shown(Finite(intended.lower), Finite(intended.upper))
  {
  }

  /** The eleven printed timeline values, year 0 first. */
  function TimelineValues(savings: SavingsData, cost: CostBreakdown): (v: seq<real>)
    ensures |v| == 11 && v[0] == -cost.totalCost
    ensures forall year :: 0 <= year < |v| ==> v[year] == Timeline(savings, cost)[year].upper
  {
    seq(11, year requires 0 <= year < 11 => TimelineValue(savings, cost, year))
  }
}
