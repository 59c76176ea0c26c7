# Solar rooftop feasibility estimator — Dafny model

This project models the rooftop solar feasibility estimator. `SolarCalculator`
takes five inputs: roof area, monthly consumption, tariff, installed cost per
watt and daily irradiance. With two fixed assumptions (panel efficiency 0.10,
performance ratio 0.75) it derives five quantities: rated system size in kW,
monthly generation, monthly savings, total cost and payback years. Payback is
absent when there are no savings. The model also covers the decision rules of
the Streamlit page: the payback tier message, the surplus-or-coverage insight,
the annual savings line and the ranges of the five number inputs.

Modules:

- `Optional` (`option.dfy`): `Option`, for Python's `None`-or-number.
- `Rounding` (`rounding.dfy`): `Round(x, n)`, the multiple of 10^-n nearest to
  `x`, built from `.Floor`, with its properties.
- `Calculator` (`calculator.dfy`): the calculator as an immutable datatype of
  its five constructor fields. Each `calculate_*` method is a function.
  `get_summary` returns a `Summary` record with five fields. The constants
  are named module constants. The source never changes a field after
  `__init__`, so no class is needed.
- `App` (`app.dfy`): the page's decisions as pure functions, plus
  `WithinInputBounds` for the widget ranges.

Every quantity is an exact `real`. The source rounds money and energy to
hundredths and payback to tenths. The model states each result as "a whole
number of steps of the grid, within half a step of the exact formula". The
exact formula is `ExactSize`, `ExactGeneration`, `Bill`, `ExactCost` or cost
÷ annual savings. The lower bound is strict because exact ties round up;
Python rounds exact ties to even (see "## Left out"). The scenario lemmas
pin exact values.

## Model

| member | source | states |
|---|---|---|
| `Rounding.Round` | solar_backend/calculator.py:16-33 | `round(x, n)` lies within half a step of 10^-n of `x` (strictly above `x` minus half a step, as ties round up), and is non-negative when `x` is |
| `Rounding.RoundIsOnGrid` | solar_backend/calculator.py:16-33 | the result of `round(x, n)` is a whole number of steps of 10^-n |
| `Rounding.RoundIsNearest` | solar_backend/calculator.py:16-33 | any grid point strictly within half a step of `x` is the rounding of `x`, so rounding picks the nearest grid point |
| `Rounding.RoundOnGrid` | solar_backend/calculator.py:16-33 | a value already on the grid rounds to itself |
| `Rounding.RoundIdempotent` | solar_backend/calculator.py:16-33 | rounding twice gives the same as rounding once |
| `Rounding.RoundMonotone` | solar_backend/calculator.py:16-33 | rounding never reverses the order of two inputs |
| `Calculator.SystemSize` | solar_backend/calculator.py:16-17 | system size is a whole number of hundredths within 0.005 kW of roof area × 0.10, and non-negative for a non-negative roof |
| `Calculator.SystemSizeMonotone` | solar_backend/calculator.py:16-17 | a larger roof never gives a smaller system size |
| `Calculator.MonthlyGeneration` | solar_backend/calculator.py:19-21 | generation is a whole number of hundredths within 0.005 kWh of the rounded size × irradiance × 30 × 0.75 |
| `Calculator.GenerationUsesRoundedSize` | solar_backend/calculator.py:19-21 | generation uses the rounded size: a 100.04 m² roof (exact size 10.004 kW) generates 1125.0 kWh, the same as a 100 m² roof, not 1125.45 |
| `Calculator.GenerationMonotone` | solar_backend/calculator.py:19-21 | with non-negative irradiance, a larger roof never generates less |
| `Calculator.MonthlySavings` | solar_backend/calculator.py:23-24 | savings are a whole number of hundredths within 0.005 of consumption × tariff |
| `Calculator.SavingsIgnoreTheSystem` | solar_backend/calculator.py:23-24 | savings do not change when the roof area, irradiance or cost per watt changes |
| `Calculator.SavingsNotCappedByGeneration` | solar_backend/calculator.py:19-24 | savings are not capped by generation: 2.25 kWh generated at tariff 50 is worth 112.5, yet savings are the full 500000 bill |
| `Calculator.TotalCost` | solar_backend/calculator.py:27-28 | total cost is a whole number of hundredths within 0.005 of the rounded size × cost per watt × 1000 (kW to W) |
| `Calculator.TotalCostMonotone` | solar_backend/calculator.py:27-28 | with a non-negative cost rate, a larger roof never costs less |
| `Calculator.PaybackYears` | solar_backend/calculator.py:30-33 | payback is absent exactly when annual savings (savings × 12) are ≤ 0; otherwise it is a whole number of tenths within 0.05 years of cost ÷ annual savings, so it never divides by zero |
| `Calculator.NoSavingsNoPayback` | solar_backend/calculator.py:30-33 | zero consumption or a zero tariff gives savings of 0.0 and no payback |
| `Calculator.OutputsNonNegative` | solar_backend/calculator.py:16-33 | with non-negative inputs, size, generation, savings and cost are ≥ 0, and payback is ≥ 0 when present |
| `Calculator.GetSummary` | solar_backend/calculator.py:35-42 | the summary's five fields each equal their calculator method |
| `Calculator.SummaryDeterministic` | solar_backend/calculator.py:35-42 | equal inputs give equal summaries |
| `Calculator.SampleSummary` | solar_backend/calculator.py:48-54 | the sample (100, 300, 9.5, 50, 5.0) gives size 10.0, generation 1125.0, savings 2850.0, cost 500000.0 and payback 14.6 |
| `Calculator.LowerTariffSummary` | solar_backend/calculator.py:16-33 | the same inputs at tariff 5.0 give savings 1500.0 and payback 27.8 |
| `App.Truthy` | frontend/app.py:126 | Python's truth value of the payback: true exactly for a present, non-zero payback (`None` and 0.0 are false) |
| `App.WithinInputBounds` | frontend/app.py:26-73 | the five `number_input` ranges: roof 1–1000 m², consumption 1–10000 kWh, tariff 0.1–50, cost 10–200 per W, irradiance 1–10; every input inside them is positive |
| `App.PaybackTier` | frontend/app.py:125-134 | by the payback's truth value (`Unable` exactly when not `Truthy`): `None` or 0.0 → unable; non-zero p ≤ 5 → excellent; 5 < p ≤ 8 → good; p > 8 → consider carefully; exactly one applies |
| `App.PaybackTierIntended` | frontend/app.py:125-134 | the same tiers with the error kept for an absent payback only: p ≤ 5 → excellent, including 0.0 |
| `App.TiersDifferOnlyAtZero` | frontend/app.py:126 | the page's rule and the intended rule disagree exactly when payback is `Some(0.0)` |
| `App.ZeroPaybackShownAsError` | frontend/app.py:125-134 | within the input ranges, roof 1, consumption 10000, tariff 50, cost 10/W gives cost 1000, annual savings 6000000 and payback 0.0; the page shows the error, the intended rule shows excellent |
| `App.InsightFor` | frontend/app.py:138-148 | surplus exactly when generation ≥ consumption, with excess ≥ 0 and consumption + excess = generation; otherwise deficit > 0 with generation + deficit = consumption, coverage × consumption = generation × 100, coverage in [0, 100) when generation ≥ 0; generation below a consumption of zero is the failing division |
| `App.CoverageShare` | frontend/app.py:144-148 | the shortfall branch: a positive deficit, and coverage as the percentage of consumption generated, below 100 when generation ≥ 0 |
| `App.InsightDefinedWithinBounds` | frontend/app.py:35-42 | within the input ranges, consumption ≥ 1, so the coverage division never fails |
| `App.LargeRoofShowsSurplus` | frontend/app.py:138-143 | roof 1000 m² at irradiance 6 against 300 kWh generates 13500.0 kWh and reports a surplus of 13200.0 |
| `App.DisplayedAnnualSavings` | frontend/app.py:151 | the annual savings line divided by 12 is the monthly savings |
| `App.DisplayedAnnualSavingsArePaybackBasis` | frontend/app.py:151 | the annual savings shown equal the calculator's payback divisor; a payback exists exactly when they are positive |
| `App.PaybackDefinedWithinBounds` | frontend/app.py:35-53 | within the input ranges (consumption ≥ 1, tariff ≥ 0.1), monthly savings are ≥ 0.1, so a payback is always computed and the intended tier is never the error |

## Left out

- `Rounding.Round`: rounds exact ties up (half-up). Python's `round` works on the binary value of a float and rounds exact ties to even. The two differ only on exact ties. Being on the grid, the nearest grid point, monotonicity and idempotence hold for either rule. The strict lower bound of `Round` and of the five calculator quantities does not: a tie such as `round(0.125, 2)` (a 1.25 m² roof) gives 0.12 in Python, exactly half a step below.
- IEEE-754 floating point: every quantity is an exact `real`. Representation error (0.1 is not exact in binary, for example) is not modelled.
- Input validation: the calculator checks nothing, so the calculator functions have no preconditions. Properties that need non-negative inputs or the widget ranges say so in their own `requires`.
- Streamlit page setup, columns, `st.metric`/`st.success`/`st.info`/`st.warning`/`st.error` rendering and the `:,.2f`/`:.1f` formatting: presentation only. The tier and insight are returned as values, not message strings.
- The `sys.path` manipulation and imports at the top of the page: environment plumbing.
- The script entry point of the calculator module (printing, humanising keys with `.replace('_', ' ').title()`, catching `ValueError`/`Exception`): I/O. Its sample input is `Calculator.SampleSummary`.
- The page's `try/except Exception`: only the failure possible for arbitrary inputs is modelled, the coverage division by zero consumption, as `App.Insight.CoverageUndefined`; within the widget ranges it cannot happen (`App.InsightDefinedWithinBounds`).
- The widgets' `value` defaults and `step` sizes: they do not constrain what the calculator receives.

## Findings

| source | as written | input that shows it | evidently intended | confidence | as-written member | corrected member |
|---|---|---|---|---|---|---|
| frontend/app.py:126 | `if payback_years:` tests the truth value, so a payback that rounds to 0.0 takes the "Unable to calculate payback period" branch, like `None` | roof 1 m², consumption 10000 kWh, tariff 50, cost 10 per W: cost 1000 against annual savings 6000000, payback 0.0002 rounds to 0.0 | only an absent payback (`is None`) shows the error; a 0.0 payback is excellent | medium; not executed | `App.PaybackTier`, shown by `App.ZeroPaybackShownAsError` | `App.PaybackTierIntended`, with `App.PaybackDefinedWithinBounds` |
