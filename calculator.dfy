/** The feasibility formula chain of `SolarCalculator`.

    A calculator is the five values its constructor stores; the two
    assumption constants are fixed. Every derived quantity is a function of
    the calculator alone, computed afresh on each call, as in the source.
    Quantities are exact reals; Python's `round` is `Rounding.Round`.
 */
module Calculator {
  import opened Rounding
  import opened Optional

  /** Fraction of roof area turned into rated kW capacity. */
  const PanelEfficiencyFactor: real := 0.10
  /** Derating of theoretical generation for real-world losses. */
  const PerformanceRatio: real := 0.75
  /** The fixed month length used for generation. */
  const DaysPerMonth: real := 30.0
  /** System size is held in kW; the cost rate is per watt. */
  const WattsPerKilowatt: real := 1000.0
  const MonthsPerYear: real := 12.0

  /** The five user inputs, stored unchanged by the constructor: roof area in
      square metres, consumption in kWh per month, tariff in currency per
      kWh, installed cost in currency per watt, irradiance in kWh per square
      metre per day. */
  datatype SolarCalculator = SolarCalculator(
    roofAreaSqm: real,
    monthlyConsumptionKwh: real,
    tariffRate: real,
    costPerWatt: real,
    irradiance: real)

  /** The result record: the five derived quantities under their own names. */
  datatype Summary = Summary(
    systemSizeKw: real,
    monthlyGenerationKwh: real,
    monthlySavings: real,
    totalSystemCost: real,
    paybackYears: Option<real>)

  /** Roof area times panel efficiency: the capacity before rounding. */
  function ExactSize(c: SolarCalculator): real {
    c.roofAreaSqm * PanelEfficiencyFactor
  }

  /** Rated capacity in kW, to the nearest hundredth. */
  function SystemSize(c: SolarCalculator): (kw: real)
    ensures ExactSize(c) - 0.005 < kw <= ExactSize(c) + 0.005
    ensures c.roofAreaSqm >= 0.0 ==> kw >= 0.0
    ensures OnGrid(kw, 2)
  {
    ScaleValues();
    RoundIsOnGrid(ExactSize(c), 2);
    Round(ExactSize(c), 2)
  }

  /** The daily yield of the rounded capacity over a 30-day month, derated:
      generation before rounding. */
  function ExactGeneration(c: SolarCalculator): real {
    SystemSize(c) * c.irradiance * DaysPerMonth * PerformanceRatio
  }

  /** Expected generation in kWh per month, to the nearest hundredth,
      computed from the already rounded system size. */
  function MonthlyGeneration(c: SolarCalculator): (kwh: real)
    ensures ExactGeneration(c) - 0.005 < kwh <= ExactGeneration(c) + 0.005
    ensures OnGrid(kwh, 2)
  {
    ScaleValues();
    RoundIsOnGrid(ExactGeneration(c), 2);
    Round(ExactGeneration(c), 2)
  }

  /** The current monthly bill: consumption at the tariff. */
  function Bill(c: SolarCalculator): real {
    c.monthlyConsumptionKwh * c.tariffRate
  }

  /** Savings per month: the whole current bill, to the nearest hundredth. */
  function MonthlySavings(c: SolarCalculator): (saved: real)
    ensures Bill(c) - 0.005 < saved <= Bill(c) + 0.005
    ensures OnGrid(saved, 2)
  {
    ScaleValues();
    RoundIsOnGrid(Bill(c), 2);
    Round(Bill(c), 2)
  }

  /** The rounded capacity in watts at the cost rate: the cost before
      rounding. */
  function ExactCost(c: SolarCalculator): real {
    SystemSize(c) * c.costPerWatt * WattsPerKilowatt
  }

  /** Installed cost, with the kW capacity converted to watts, to the
      nearest hundredth. */
  function TotalCost(c: SolarCalculator): (cost: real)
    ensures ExactCost(c) - 0.005 < cost <= ExactCost(c) + 0.005
    ensures OnGrid(cost, 2)
  {
    ScaleValues();
    RoundIsOnGrid(ExactCost(c), 2);
    Round(ExactCost(c), 2)
  }

  /** Twelve months of the rounded monthly savings. */
  function AnnualSavings(c: SolarCalculator): real {
    MonthlySavings(c) * MonthsPerYear
  }

  /** Years until cumulative savings equal the cost, to the nearest tenth;
      absent when there are no savings to pay the cost back with. */
  function PaybackYears(c: SolarCalculator): (years: Option<real>)
    ensures years.None? <==> AnnualSavings(c) <= 0.0
    ensures years.Some? ==>
      TotalCost(c) / AnnualSavings(c) - 0.05 < years.value <= TotalCost(c) / AnnualSavings(c) + 0.05
    ensures years.Some? ==> OnGrid(years.value, 1)
  {
    ScaleValues();
    var annual := AnnualSavings(c);
    var cost := TotalCost(c);
    if annual > 0.0 then
      RoundIsOnGrid(cost / annual, 1);
      Some(Round(cost / annual, 1))
    else
      None
  }

  /** All five quantities, each as its own function computes it. */
  function GetSummary(c: SolarCalculator): (s: Summary)
    ensures s.systemSizeKw == SystemSize(c)
    ensures s.monthlyGenerationKwh == MonthlyGeneration(c)
    ensures s.monthlySavings == MonthlySavings(c)
    ensures s.totalSystemCost == TotalCost(c)
    ensures s.paybackYears == PaybackYears(c)
  {
    Summary(SystemSize(c), MonthlyGeneration(c), MonthlySavings(c), TotalCost(c), PaybackYears(c))
  }

  /** A larger roof never gives a smaller system. */
  lemma SystemSizeMonotone(c: SolarCalculator, largerArea: real)
    requires c.roofAreaSqm <= largerArea
    ensures SystemSize(c) <= SystemSize(c.(roofAreaSqm := largerArea))
  {
    RoundMonotone(ExactSize(c), ExactSize(c.(roofAreaSqm := largerArea)), 2);
  }

  /** With non-negative irradiance, a larger roof never generates less. */
  lemma GenerationMonotone(c: SolarCalculator, largerArea: real)
    requires c.roofAreaSqm <= largerArea && c.irradiance >= 0.0
    ensures MonthlyGeneration(c) <= MonthlyGeneration(c.(roofAreaSqm := largerArea))
  {
    var d := c.(roofAreaSqm := largerArea);
    SystemSizeMonotone(c, largerArea);
    var k := c.irradiance * DaysPerMonth * PerformanceRatio;
    MulMonotone(SystemSize(c), SystemSize(d), k);
    assert ExactGeneration(c) == SystemSize(c) * k;
    assert ExactGeneration(d) == SystemSize(d) * k;
    RoundMonotone(ExactGeneration(c), ExactGeneration(d), 2);
  }

  /** With a non-negative cost rate, a larger roof never costs less. */
  lemma TotalCostMonotone(c: SolarCalculator, largerArea: real)
    requires c.roofAreaSqm <= largerArea && c.costPerWatt >= 0.0
    ensures TotalCost(c) <= TotalCost(c.(roofAreaSqm := largerArea))
  {
    var d := c.(roofAreaSqm := largerArea);
    SystemSizeMonotone(c, largerArea);
    var k := c.costPerWatt * WattsPerKilowatt;
    MulMonotone(SystemSize(c), SystemSize(d), k);
    assert ExactCost(c) == SystemSize(c) * k;
    assert ExactCost(d) == SystemSize(d) * k;
    RoundMonotone(ExactCost(c), ExactCost(d), 2);
  }

  /** Multiplying by a non-negative factor keeps order. */
  lemma MulMonotone(a: real, b: real, k: real)
    requires a <= b && k >= 0.0
    ensures a * k <= b * k
  {
  }

  /** Generation is computed from the rounded capacity: a roof of 100.04 m²
      has an exact capacity of 10.004 kW, yet generates exactly what a roof of
      100 m² does, 1125 kWh, not the 1125.45 kWh its exact capacity would. */
  lemma GenerationUsesRoundedSize()
    ensures var c := SolarCalculator(100.04, 300.0, 9.5, 50.0, 5.0);
      && SystemSize(c) == 10.0
      && c.roofAreaSqm * PanelEfficiencyFactor * c.irradiance * DaysPerMonth * PerformanceRatio == 1125.45
      && MonthlyGeneration(c) == 1125.0
      && MonthlyGeneration(c) == MonthlyGeneration(c.(roofAreaSqm := 100.0))
  {
    ScaleValues();
    RoundsTo(10.004, 2, 10.0, 1000);
    RoundsTo(10.0, 2, 10.0, 1000);
    RoundsTo(1125.0, 2, 1125.0, 112500);
  }

  /** Savings depend on consumption and tariff only: the roof, the
      irradiance and the cost rate leave them unchanged. */
  lemma SavingsIgnoreTheSystem(c: SolarCalculator, area: real, irradiance: real, costPerWatt: real)
    ensures MonthlySavings(c.(roofAreaSqm := area, irradiance := irradiance, costPerWatt := costPerWatt))
         == MonthlySavings(c)
  {
    var d := c.(roofAreaSqm := area, irradiance := irradiance, costPerWatt := costPerWatt);
    assert Bill(d) == Bill(c);
  }

  /** Savings are not capped by generation: a 1 m² roof generates 2.25 kWh a
      month, worth 112.5 at a tariff of 50, yet saves the whole bill of
      500000 for 10000 kWh. */
  lemma SavingsNotCappedByGeneration()
    ensures var c := SolarCalculator(1.0, 10000.0, 50.0, 10.0, 1.0);
      && MonthlyGeneration(c) == 2.25
      && MonthlyGeneration(c) < c.monthlyConsumptionKwh
      && MonthlySavings(c) == 500000.0
      && MonthlySavings(c) > MonthlyGeneration(c) * c.tariffRate
  {
    ScaleValues();
    RoundsTo(0.1, 2, 0.1, 10);
    RoundsTo(2.25, 2, 2.25, 225);
    RoundsTo(500000.0, 2, 500000.0, 50000000);
  }

  /** With non-negative inputs every quantity is non-negative, and so is the
      payback when there is one. */
  lemma OutputsNonNegative(c: SolarCalculator)
    requires c.roofAreaSqm >= 0.0 && c.monthlyConsumptionKwh >= 0.0 && c.tariffRate >= 0.0
    requires c.costPerWatt >= 0.0 && c.irradiance >= 0.0
    ensures SystemSize(c) >= 0.0
    ensures MonthlyGeneration(c) >= 0.0
    ensures MonthlySavings(c) >= 0.0
    ensures TotalCost(c) >= 0.0
    ensures PaybackYears(c).Some? ==> PaybackYears(c).value >= 0.0
  {
    GenerationNonNegative(c);
    MulMonotone(0.0, c.monthlyConsumptionKwh, c.tariffRate);
    TotalCostNonNegative(c);
    PaybackNonNegative(c);
  }

  /** A non-negative size at non-negative irradiance generates a
      non-negative amount. */
  lemma GenerationNonNegative(c: SolarCalculator)
    requires c.roofAreaSqm >= 0.0 && c.irradiance >= 0.0
    ensures MonthlyGeneration(c) >= 0.0
  {
    var k := c.irradiance * DaysPerMonth * PerformanceRatio;
    MulMonotone(0.0, SystemSize(c), k);
    assert ExactGeneration(c) == SystemSize(c) * k;
  }

  /** A non-negative size at a non-negative rate costs a non-negative
      amount. */
  lemma TotalCostNonNegative(c: SolarCalculator)
    requires c.roofAreaSqm >= 0.0 && c.costPerWatt >= 0.0
    ensures TotalCost(c) >= 0.0
  {
    var k := c.costPerWatt * WattsPerKilowatt;
    MulMonotone(0.0, SystemSize(c), k);
    assert ExactCost(c) == SystemSize(c) * k;
  }

  /** A non-negative cost over positive annual savings pays back in a
      non-negative number of years. */
  lemma PaybackNonNegative(c: SolarCalculator)
    requires TotalCost(c) >= 0.0
    ensures PaybackYears(c).Some? ==> PaybackYears(c).value >= 0.0
  {
    if AnnualSavings(c) > 0.0 {
      QuotientNonNegative(TotalCost(c), AnnualSavings(c));
      assert PaybackYears(c) == Some(Round(TotalCost(c) / AnnualSavings(c), 1));
    }
  }

  /** A non-negative amount over a positive one is non-negative. */
  lemma QuotientNonNegative(a: real, b: real)
    requires a >= 0.0 && b > 0.0
    ensures a / b >= 0.0
  {
  }

  /** No savings, no payback: a zero tariff or zero consumption saves 0.0 and
      leaves the payback absent rather than dividing by zero. */
  lemma NoSavingsNoPayback(c: SolarCalculator)
    requires c.monthlyConsumptionKwh == 0.0 || c.tariffRate == 0.0
    ensures MonthlySavings(c) == 0.0
    ensures PaybackYears(c) == None
  {
    ScaleValues();
    RoundsTo(0.0, 2, 0.0, 0);
  }

  /** The sample the module runs when executed as a script. */
  lemma SampleSummary()
    ensures GetSummary(SolarCalculator(100.0, 300.0, 9.5, 50.0, 5.0))
         == Summary(10.0, 1125.0, 2850.0, 500000.0, Some(14.6))
  {
    ScaleValues();
    RoundsTo(10.0, 2, 10.0, 1000);
    RoundsTo(1125.0, 2, 1125.0, 112500);
    RoundsTo(2850.0, 2, 2850.0, 285000);
    RoundsTo(500000.0, 2, 500000.0, 50000000);
    RoundsTo(500000.0 / 34200.0, 1, 14.6, 146);
  }

  /** The same inputs at a tariff of 5.0: savings of 1500 pay the same cost
      back in 27.8 years. */
  lemma LowerTariffSummary()
    ensures GetSummary(SolarCalculator(100.0, 300.0, 5.0, 50.0, 5.0))
         == Summary(10.0, 1125.0, 1500.0, 500000.0, Some(27.8))
  {
    ScaleValues();
    RoundsTo(10.0, 2, 10.0, 1000);
    RoundsTo(1125.0, 2, 1125.0, 112500);
    RoundsTo(1500.0, 2, 1500.0, 150000);
    RoundsTo(500000.0, 2, 500000.0, 50000000);
    RoundsTo(500000.0 / 18000.0, 1, 27.8, 278);
  }

  /** A summary is a function of the inputs alone: equal inputs give equal
      summaries. This holds by construction, since every quantity is a
      function of the calculator; the lemma records that nothing else (a
      clock, a cache, earlier calls) enters the result. */
  lemma SummaryDeterministic(c: SolarCalculator, d: SolarCalculator)
    requires c == d
    ensures GetSummary(c) == GetSummary(d)
  {
  }
}
