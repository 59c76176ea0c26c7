/** The decisions the Streamlit page takes after computing a summary: the
    payback tier, the surplus-or-coverage insight and the annual savings
    line. Widgets and rendering are not modelled; the widgets' minimum and
    maximum values become `WithinInputBounds`.
 */
module App {
  import opened Rounding
  import opened Optional
  import opened Calculator

  /** The ranges the five number inputs accept. Every minimum is positive,
      so every input the page passes on is positive. */
  predicate WithinInputBounds(c: SolarCalculator): (ok: bool)
    ensures ok ==> c.roofAreaSqm > 0.0 && c.monthlyConsumptionKwh > 0.0 && c.tariffRate > 0.0
    ensures ok ==> c.costPerWatt > 0.0 && c.irradiance > 0.0
  {
    && 1.0 <= c.roofAreaSqm <= 1000.0
    && 1.0 <= c.monthlyConsumptionKwh <= 10000.0
    && 0.1 <= c.tariffRate <= 50.0
    && 10.0 <= c.costPerWatt <= 200.0
    && 1.0 <= c.irradiance <= 10.0
  }

  /** The four messages the page may show for the payback period. */
  datatype Tier = Excellent | Good | ConsiderCarefully | Unable

  /** Python's truth value of the payback: `None` and `0.0` are false. The
      contract is definitional; `PaybackTier` states its use. */
  predicate Truthy(p: Option<real>): (b: bool)
    ensures b <==> p != None && p != Some(0.0)
  {
    p.Some? && p.value != 0.0
  }

  /** The tier as the page selects it, by the truth value of the payback.
      A payback of exactly 0.0 falls into the error message with `None`. */
  function PaybackTier(p: Option<real>): (t: Tier)
    ensures t == Unable <==> !Truthy(p)
    ensures t == Unable <==> p.None? || p.value == 0.0
    ensures t == Excellent <==> p.Some? && p.value != 0.0 && p.value <= 5.0
    ensures t == Good <==> p.Some? && 5.0 < p.value <= 8.0
    ensures t == ConsiderCarefully <==> p.Some? && 8.0 < p.value
  {
    if Truthy(p) then
      if p.value <= 5.0 then Excellent
      else if p.value <= 8.0 then Good
      else ConsiderCarefully
    else
      Unable
  }

  /** The tier with the error message kept for an absent payback only. */
  function PaybackTierIntended(p: Option<real>): (t: Tier)
    ensures t == Unable <==> p.None?
    ensures t == Excellent <==> p.Some? && p.value <= 5.0
    ensures t == Good <==> p.Some? && 5.0 < p.value <= 8.0
    ensures t == ConsiderCarefully <==> p.Some? && 8.0 < p.value
  {
    match p
    case None => Unable
    case Some(years) =>
      if years <= 5.0 then Excellent
      else if years <= 8.0 then Good
      else ConsiderCarefully
  }

  /** The two tier rules differ on exactly one value: a payback of 0.0. */
  lemma TiersDifferOnlyAtZero(p: Option<real>)
    ensures PaybackTier(p) != PaybackTierIntended(p) <==> p == Some(0.0)
  {
  }

  /** What the insights section reports: a monthly surplus, or the share of
      consumption covered and the shortfall drawn from the grid. The
      coverage division fails when consumption is zero and generation is
      below it; that consumption lies outside the widget ranges, so the page
      cannot reach it (`InsightDefinedWithinBounds`). */
  datatype Insight =
    | Surplus(excess: real)
    | Shortfall(coverage: real, deficit: real)
    | CoverageUndefined

  /** The insight for a monthly generation against the consumption entered. */
  function InsightFor(generation: real, consumption: real): (i: Insight)
    ensures i.Surplus? <==> generation >= consumption
    ensures i.Surplus? ==> i.excess >= 0.0 && consumption + i.excess == generation
    ensures i.CoverageUndefined? <==> generation < consumption && consumption == 0.0
    ensures i.Shortfall? ==> i.deficit > 0.0 && generation + i.deficit == consumption
    ensures i.Shortfall? ==> i.coverage * consumption == generation * 100.0
    ensures i.Shortfall? && generation >= 0.0 ==> 0.0 <= i.coverage < 100.0
  {
    if generation >= consumption then
      Surplus(generation - consumption)
    else if consumption == 0.0 then
      CoverageUndefined
    else
      CoverageShare(generation, consumption)
  }

  /** The shortfall branch: coverage as a percentage of consumption. */
  function CoverageShare(generation: real, consumption: real): (i: Insight)
    requires generation < consumption && consumption != 0.0
    ensures i.Shortfall?
    ensures i.deficit > 0.0 && generation + i.deficit == consumption
    ensures i.coverage * consumption == generation * 100.0
    ensures generation >= 0.0 ==> 0.0 <= i.coverage < 100.0
  {
    CoverageBelowWhole(generation, consumption);
    Shortfall(generation / consumption * 100.0, consumption - generation)
  }

  /** A non-negative amount below another is under 100 percent of it. */
  lemma CoverageBelowWhole(part: real, whole: real)
    requires part < whole && whole != 0.0
    ensures 0.0 <= part ==> 0.0 <= part / whole * 100.0 < 100.0
  {
    if 0.0 <= part {
      assert part / whole < 1.0;
    }
  }

  /** The annual savings line: twelve times the monthly savings shown. */
  function DisplayedAnnualSavings(s: Summary): (yearly: real)
    ensures yearly / MonthsPerYear == s.monthlySavings
  {
    s.monthlySavings * MonthsPerYear
  }

  /** The annual savings the page shows are the ones the payback divides
      by: the payback exists exactly when they are positive. */
  lemma DisplayedAnnualSavingsArePaybackBasis(c: SolarCalculator)
    ensures DisplayedAnnualSavings(GetSummary(c)) == AnnualSavings(c)
    ensures GetSummary(c).paybackYears.Some? <==> DisplayedAnnualSavings(GetSummary(c)) > 0.0
  {
  }

  /** Within the input bounds the savings are at least 0.1 a month, so a
      payback is always computed and the intended rule never shows the
      error message. */
  lemma PaybackDefinedWithinBounds(c: SolarCalculator)
    requires WithinInputBounds(c)
    ensures MonthlySavings(c) >= 0.1
    ensures PaybackYears(c).Some?
    ensures PaybackTierIntended(PaybackYears(c)) != Unable
  {
    ScaleValues();
    MulMonotone(1.0, c.monthlyConsumptionKwh, c.tariffRate);
    assert Bill(c) >= 0.1;
    RoundMonotone(0.1, Bill(c), 2);
    RoundsTo(0.1, 2, 0.1, 10);
  }

  /** Within the input bounds consumption is positive, so the coverage
      division never fails. */
  lemma InsightDefinedWithinBounds(c: SolarCalculator)
    requires WithinInputBounds(c)
    ensures !InsightFor(MonthlyGeneration(c), c.monthlyConsumptionKwh).CoverageUndefined?
  {
  }

  /** The smallest roof at the cheapest rate against the largest bill: a
      cost of 1000 against annual savings of 6000000 pays back in about
      0.0002 years, which rounds to 0.0. The page, testing the payback's
      truth value, reports that it is unable to calculate it; the intended
      rule reports it as excellent. */
  lemma ZeroPaybackShownAsError()
    ensures var c := SolarCalculator(1.0, 10000.0, 50.0, 10.0, 5.0);
      && WithinInputBounds(c)
      && TotalCost(c) == 1000.0
      && AnnualSavings(c) == 6000000.0
      && PaybackYears(c) == Some(0.0)
      && PaybackTier(PaybackYears(c)) == Unable
      && PaybackTierIntended(PaybackYears(c)) == Excellent
  {
    var c := SolarCalculator(1.0, 10000.0, 50.0, 10.0, 5.0);
    ScaleValues();
    RoundsTo(0.1, 2, 0.1, 10);
    RoundsTo(1000.0, 2, 1000.0, 100000);
    RoundsTo(500000.0, 2, 500000.0, 50000000);
    RoundsTo(1000.0 / 6000000.0, 1, 0.0, 0);
    assert PaybackYears(c) == Some(Round(1000.0 / 6000000.0, 1));
  }

  /** A large sunny roof against a modest bill: 13500 kWh generated against
      300 consumed is reported as a surplus of 13200 kWh. */
  lemma LargeRoofShowsSurplus()
    ensures var c := SolarCalculator(1000.0, 300.0, 5.0, 50.0, 6.0);
      && MonthlyGeneration(c) == 13500.0
      && InsightFor(MonthlyGeneration(c), c.monthlyConsumptionKwh) == Surplus(13200.0)
  {
    ScaleValues();
    RoundsTo(100.0, 2, 100.0, 10000);
    RoundsTo(13500.0, 2, 13500.0, 1350000);
  }
}
