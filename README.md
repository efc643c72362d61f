# Livestock cost dashboard: derived metrics

A Dafny model of the arithmetic core of the `Dashboard` component of the
livestock production cost dashboard (`src/pages/Home/index.tsx`). The page
holds five numeric inputs, each set by a range slider:

- herd size (`numAnimais`)
- unit cost (`custoUnitario`)
- revenue (`receitaTotal`)
- variable cost (`custoVariavel`)
- fixed cost (`custoFixo`)

Every render recomputes five metrics from these inputs: total cost, cost per
animal, gross margin in percent, profit and cost per kilogram. From the
metrics it builds the numbers behind the KPI cards, a four-bar chart, a
two-slice pie chart and a five-month profit trend. The bar chart's tooltip
undoes the thousands scaling of the first bar.

The project has three modules:

- `Inputs` (`inputs.dfy`): the input record `State`, the default state, the sliders'
  bounds and the `onChange` setters as functional record updates.
- `Metrics` (`metrics.dfy`): the five derived metrics and their bounds
  within the slider ranges.
- `Charts` (`charts.dfy`): the KPI, bar, pie and line series and the bar
  tooltip's rescaling.

All code is pure. JavaScript numbers are modelled as `real`, so every equation
holds exactly. A division asks only that its denominator be nonzero. The
lemmas show that every state within the slider ranges meets that condition.

The profit trend covers five months, with factors 0.8, 0.9, 1, 1.1 and 1.2.
The component has no code that validates inputs, toggles months or exports
data. The browser's range slider keeps each input within its bounds.

The per-kilogram cost divides by the constant 4000. The comment next to that
line assumes 4 kg per animal, which matches the constant only for a herd of
1000 animals. The model keeps the constant, as the code has it.

## Model

| member | source | states |
|---|---|---|
| `Inputs.Default` | src/pages/Home/index.tsx:30-34 | the initial values (1000, 45, 65000, 30000, 20000) lie within every slider range |
| `Inputs.SliderMin` | src/pages/Home/index.tsx:199-247 | each slider's `min` (500, 30, 50000, 20000, 10000) is positive |
| `Inputs.SliderMax` | src/pages/Home/index.tsx:200-248 | each slider's `max` (2000, 60, 100000, 50000, 30000) lies above its `min` |
| `Inputs.Set` | src/pages/Home/index.tsx:202-250 | a slider's setter gives that slider the new value and keeps the other four values |
| `Inputs.GetExtensional` | src/pages/Home/index.tsx:30-34 | two input states are equal exactly when all five sliders show the same values |
| `Inputs.InRangeEverySlider` | src/pages/Home/index.tsx:199-248 | the range condition holds exactly when every slider's value lies within its `min`/`max` |
| `Inputs.SetInRange` | src/pages/Home/index.tsx:197-252 | from an in-range state, a setter gives an in-range state if and only if the new value lies within that slider's bounds |
| `Inputs.SetUndo` | src/pages/Home/index.tsx:202-250 | moving a slider back to its old value restores the previous state |
| `Inputs.SetOverrides` | src/pages/Home/index.tsx:202-250 | moving the same slider twice equals moving it once, to the later value |
| `Inputs.SetCommutes` | src/pages/Home/index.tsx:202-250 | moves of two different sliders commute |
| `Metrics.LucroIsRevenueMinusCosts` | src/pages/Home/index.tsx:37-40 | profit is revenue minus the variable and the fixed cost |
| `Metrics.DenominatorsPositive` | src/pages/Home/index.tsx:38-41 | in range, herd size, revenue and the 4000 divisor are all positive, so every metric is defined |
| `Metrics.CustoTotalBounds` | src/pages/Home/index.tsx:235-248 | in range, total cost lies in [30000, 80000] |
| `Metrics.CustoPorAnimalBounds` | src/pages/Home/index.tsx:38 | in range (herd 500-2000, lines 199-200), cost per animal lies in [15, 160] |
| `Metrics.CustoPorKgBounds` | src/pages/Home/index.tsx:41 | in range, cost per kilogram lies in [7.5, 20] |
| `Metrics.MargemBrutaBounds` | src/pages/Home/index.tsx:39 | in range (revenue at least 50000, which is at least the variable cost), the margin lies in [0, 80] and is never negative |
| `Metrics.LucroBounds` | src/pages/Home/index.tsx:40 | in range, profit lies in [-30000, 70000] |
| `Metrics.DefaultMetrics` | src/pages/Home/index.tsx:30-41 | the initial state has total cost 50000, cost per animal 50, cost per kg 12.5, profit 15000 and margin 3500/65 |
| `Metrics.MetricsIgnoreCustoUnitario` | src/pages/Home/index.tsx:31-41 | moving the unit-cost slider changes no metric |
| `Charts.KpiValues` | src/pages/Home/index.tsx:44-49 | the KPI cards show one number per card title |
| `Charts.BarSeries` | src/pages/Home/index.tsx:52-56 | the bar chart has one value per bar label (four) |
| `Charts.PieSeries` | src/pages/Home/index.tsx:64-67 | the pie chart has one slice per pie label (two) |
| `Charts.LineSeries` | src/pages/Home/index.tsx:74-78 | the profit trend has one point per month label (five), and its middle point is the profit itself |
| `Charts.BarTooltipValue` | src/pages/Home/index.tsx:95-98 | for bar 0 the tooltip value, divided by the chart's 1000, is the plotted height; every other bar's tooltip shows its plotted height unchanged |
| `Charts.TooltipShowsKpiValue` | src/pages/Home/index.tsx:95-98 | for each of the four bars, the tooltip value equals the matching KPI card's number, so the ×1000 on bar 0 recovers the total cost exactly |
| `Charts.TooltipUndoesScaling` | src/pages/Home/index.tsx:97 | the first-bar tooltip's ×1000 and the chart's /1000 are inverse to each other |
| `Charts.PieSumsToCustoTotal` | src/pages/Home/index.tsx:67 | the two pie slices sum to the total cost |
| `Charts.PieSlicesPositive` | src/pages/Home/index.tsx:67 | in range, both pie slices are positive |
| `Charts.LineSeriesScalesLucro` | src/pages/Home/index.tsx:78 | each month's point is the profit times that month's factor (0.8, 0.9, 1, 1.1, 1.2) |
| `Charts.LucroFactorsAscend` | src/pages/Home/index.tsx:78 | the month factors strictly ascend and the middle one is 1 |
| `Charts.LineSeriesOrder` | src/pages/Home/index.tsx:78 | the trend is non-decreasing when profit is non-negative, non-increasing when it is non-positive, and strictly increasing when it is positive |
| `Charts.LineSeriesBounds` | src/pages/Home/index.tsx:78 | in range, every trend point lies in [-36000, 84000] |
| `Charts.ChartsIgnoreCustoUnitario` | src/pages/Home/index.tsx:31-87 | moving the unit-cost slider changes none of the KPI, bar, pie or line series |
| `Charts.DefaultCharts` | src/pages/Home/index.tsx:30-78 | the charts of the initial state: bars [50, 50, 12.5, 3500/65], pie [30000, 20000], trend [12000, 13500, 15000, 16500, 18000] |

## Left out

- Rendering (JSX, Tailwind classes, `ChartJS.register`, the `Bar`/`Pie`/`Line` components), because it is UI and a third-party library.
- Chart option objects (animation, colours, legend, grid, tick callbacks), because they are presentation only. The one exception is the bar tooltip's ×1000 on index 0, which is modelled.
- String formatting with `toLocaleString('pt-BR')` and `toFixed`, including the tooltip and KPI label strings, because it is locale-dependent and done by foreign code. The model keeps the numbers that these strings format.
- IEEE-754 rounding. The divisions and the factor multiplications are exact over `real`, so the ×1000 round trip holds exactly in the model. In floating point it can be off in the last digit.
- Division by zero. In JavaScript it yields `Infinity` or `NaN`. The model's `CustoPorAnimal`, `MargemBruta`, `KpiValues` and `BarSeries` require a nonzero denominator instead. No in-range state reaches zero.
- The browser's enforcement of the sliders' `min`/`max` and its integer step, and the `Number(e.target.value)` string conversion. The setters take the new value as a number, and the bounds appear as the `InRange` hypothesis of the lemmas.
- React's re-render scheduling after a setter call. Every metric is a function of the current inputs, so recomputation is implicit.
