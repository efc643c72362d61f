/** The numeric data behind the dashboard's KPI cards and its three charts
    (src/pages/Home/index.tsx: `kpis`, `barData`, `pieData`, `lineData`, and
    the label callback of the bar chart's tooltip). Colours, styling and the
    pt-BR formatting of the displayed strings are not modelled. */
module Charts {
  import opened Inputs
  import opened Metrics

  /** The bar chart plots the total cost in thousands. */
  const BarScale: real := 1000.0

  /** The profit trend's month labels. */
  const MonthLabels: seq<string> := ["Jan", "Fev", "Mar", "Abr", "Mai"]

  /** The factors the profit trend applies to the current profit, month by month. */
  const LucroFactors: seq<real> := [0.8, 0.9, 1.0, 1.1, 1.2]

  const BarLabels: seq<string> := ["Custo Total (k)", "Custo/Animal", "Custo/kg", "Margem Bruta %"]

  const PieLabels: seq<string> := ["Variáveis", "Fixos"]

  const KpiTitles: seq<string> := ["Custo Total", "Custo/Animal", "Custo/kg", "Margem Bruta"]

  /** The number each KPI card formats for display, in card order. */
  function KpiValues(i: State): (r: seq<real>)
    requires i.numAnimais != 0.0 && i.receitaTotal != 0.0
    ensures |r| == |KpiTitles|
  {
    [CustoTotal(i), CustoPorAnimal(i), CustoPorKg(i), MargemBruta(i)]
  }

  /** The bar chart's data: one value per bar label. */
  function BarSeries(i: State): (r: seq<real>)
    requires i.numAnimais != 0.0 && i.receitaTotal != 0.0
    ensures |r| == |BarLabels|
  {
    [CustoTotal(i) / BarScale, CustoPorAnimal(i), CustoPorKg(i), MargemBruta(i)]
  }

  /** The value the bar chart's tooltip shows for the bar at `dataIndex` whose
      plotted height is `y`: the first bar is scaled back up by 1000. */
  function BarTooltipValue(dataIndex: nat, y: real): (r: real)
    ensures dataIndex == 0 ==> r / BarScale == y
    ensures dataIndex != 0 ==> r == y
  {
    if dataIndex == 0 then y * BarScale else y
  }

  /** The pie chart's data: the two cost components, one per pie label. */
  function PieSeries(i: State): (r: seq<real>)
    ensures |r| == |PieLabels|
  {
    [i.custoVariavel, i.custoFixo]
  }

  /** The profit trend's data: one point per month label, the middle one being
      the current profit itself. */
  function LineSeries(i: State): (r: seq<real>)
    ensures |r| == |MonthLabels|
    ensures r[|r| / 2] == Lucro(i)
  {
    var lucro := Lucro(i);
    [lucro * 0.8, lucro * 0.9, lucro, lucro * 1.1, lucro * 1.2]
  }

  function Sum(s: seq<real>): real {
    if s == [] then 0.0 else s[0] + Sum(s[1..])
  }

  predicate NonDecreasing(s: seq<real>) {
    forall j, k :: 0 <= j < k < |s| ==> s[j] <= s[k]
  }

  predicate NonIncreasing(s: seq<real>) {
    forall j, k :: 0 <= j < k < |s| ==> s[j] >= s[k]
  }

  predicate StrictlyIncreasing(s: seq<real>) {
    forall j, k :: 0 <= j < k < |s| ==> s[j] < s[k]
  }

  /** For every bar, the tooltip shows exactly the value of the matching KPI
      card: the first bar is plotted divided by 1000, and the tooltip's
      multiplication by 1000 recovers the total cost; the other bars are
      plotted and shown unscaled. */
  lemma {:induction false} TooltipShowsKpiValue(i: State, k: nat)
    requires i.numAnimais != 0.0 && i.receitaTotal != 0.0
    requires k < |BarLabels|
    ensures BarTooltipValue(k, BarSeries(i)[k]) == KpiValues(i)[k]
  {
    if k == 0 {
      TooltipUndoesScaling(CustoTotal(i));
    }
  }

  /** The first-bar tooltip is the inverse of the bar chart's thousands scaling. */
  lemma TooltipUndoesScaling(v: real)
    ensures BarTooltipValue(0, v / BarScale) == v
  {
  }

  /** The two pie slices add up to the total cost. */
  lemma PieSumsToCustoTotal(i: State)
    ensures Sum(PieSeries(i)) == CustoTotal(i)
  {
    var p := PieSeries(i);
    assert p[1..] == [i.custoFixo] && p[1..][1..] == [];
    assert Sum(p[1..]) == i.custoFixo + Sum([]);
  }

  /** Within the slider ranges both pie slices are positive. */
  lemma PieSlicesPositive(i: State)
    requires InRange(i)
    ensures forall k :: 0 <= k < |PieSeries(i)| ==> PieSeries(i)[k] > 0.0
  {
  }

  /** Each month's point is the current profit times that month's factor. */
  lemma LineSeriesScalesLucro(i: State)
    ensures |LineSeries(i)| == |LucroFactors|
    ensures forall k :: 0 <= k < |LucroFactors| ==> LineSeries(i)[k] == Lucro(i) * LucroFactors[k]
  {
  }

  /** The month factors ascend strictly, and the middle one is 1. */
  lemma LucroFactorsAscend()
    ensures StrictlyIncreasing(LucroFactors)
    ensures LucroFactors[|LucroFactors| / 2] == 1.0
  {
  }

  /** The profit trend rises month by month when the profit is non-negative and
      falls when it is non-positive (flat exactly when the profit is zero). */
  lemma {:induction false} LineSeriesOrder(i: State)
    ensures Lucro(i) >= 0.0 ==> NonDecreasing(LineSeries(i))
    ensures Lucro(i) <= 0.0 ==> NonIncreasing(LineSeries(i))
    ensures Lucro(i) > 0.0 ==> StrictlyIncreasing(LineSeries(i))
  {
    LineSeriesScalesLucro(i);
    LucroFactorsAscend();
  }

  /** Within the slider ranges every point of the profit trend lies in [-36000, 84000]. */
  lemma LineSeriesBounds(i: State)
    requires InRange(i)
    ensures forall k :: 0 <= k < |LineSeries(i)| ==> -36000.0 <= LineSeries(i)[k] <= 84000.0
  {
    LucroBounds(i);
  }

  /** The unit cost feeds no chart: moving its slider leaves every series unchanged. */
  lemma ChartsIgnoreCustoUnitario(i: State, v: real)
    ensures i.numAnimais != 0.0 && i.receitaTotal != 0.0 ==> KpiValues(Set(i, CustoUnitario, v)) == KpiValues(i)
    ensures i.numAnimais != 0.0 && i.receitaTotal != 0.0 ==> BarSeries(Set(i, CustoUnitario, v)) == BarSeries(i)
    ensures PieSeries(Set(i, CustoUnitario, v)) == PieSeries(i)
    ensures LineSeries(Set(i, CustoUnitario, v)) == LineSeries(i)
  {
    MetricsIgnoreCustoUnitario(i, v);
  }

  /** The charts of the initial state. */
  lemma DefaultCharts()
    ensures BarSeries(Default()) == [50.0, 50.0, 12.5, 3500.0 / 65.0]
    ensures PieSeries(Default()) == [30000.0, 20000.0]
    ensures LineSeries(Default()) == [12000.0, 13500.0, 15000.0, 16500.0, 18000.0]
  {
    DefaultMetrics();
  }
}
