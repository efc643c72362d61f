/** The derived metrics of the cost dashboard (src/pages/Home/index.tsx,
    the `const` expressions under "Cálculos dinâmicos"), computed afresh from
    the five inputs on every render. JavaScript numbers are modelled as reals;
    a division takes a nonzero denominator, which every in-range state has. */
module Metrics {
  import opened Inputs

  /** The divisor of the per-kilogram cost. */
  const PesoTotalKg: real := 4000.0

  /** Total cost: the two cost inputs added, nothing else. */
  function CustoTotal(i: State): real
  {
    i.custoVariavel + i.custoFixo
  }

  /** Cost per animal: the share of the total cost borne by each animal of the herd. */
  function CustoPorAnimal(i: State): real
    requires i.numAnimais != 0.0
  {
    CustoTotal(i) / i.numAnimais
  }

  /** Gross margin, in percent of revenue: what revenue leaves after the variable cost. */
  function MargemBruta(i: State): real
    requires i.receitaTotal != 0.0
  {
    ((i.receitaTotal - i.custoVariavel) / i.receitaTotal) * 100.0
  }

  /** Profit: revenue left after the total cost. */
  function Lucro(i: State): real
  {
    i.receitaTotal - CustoTotal(i)
  }

  /** Cost per kilogram, with the fixed 4000 kg divisor. */
  function CustoPorKg(i: State): real
  {
    CustoTotal(i) / PesoTotalKg
  }

  /** Profit is revenue minus both costs. */
  lemma LucroIsRevenueMinusCosts(i: State)
    ensures Lucro(i) == i.receitaTotal - i.custoVariavel - i.custoFixo
  {
  }

  /** Helper: multiplying by a non-negative factor keeps an order. */
  lemma MulLeft(a: real, b: real, c: real)
    requires a <= b && 0.0 <= c
    ensures a * c <= b * c
  {
  }

  /** Helper: a quotient q = t / d with t in [tLo, tHi] and d in [dLo, dHi], all
      positive, lies in [tLo / dHi, tHi / dLo]. */
  lemma QuotientBounds(q: real, t: real, d: real, tLo: real, tHi: real, dLo: real, dHi: real)
    requires 0.0 < dLo <= d <= dHi && 0.0 <= tLo <= t <= tHi
    requires q * d == t
    ensures tLo / dHi <= q <= tHi / dLo
  {
    var lo, hi := tLo / dHi, tHi / dLo;
    MulLeft(d, dHi, lo);
    assert (q - lo) * d >= 0.0;
    SignOfFactor(q - lo, d);
    MulLeft(dLo, d, hi);
    assert (hi - q) * d >= 0.0;
    SignOfFactor(hi - q, d);
  }

  /** Helper: a product with a positive factor is non-negative only if the other factor is. */
  lemma SignOfFactor(a: real, d: real)
    requires 0.0 < d && 0.0 <= a * d
    ensures 0.0 <= a
  {
    if a < 0.0 {
      MulLeft(a, 0.0, d);
    }
  }

  /** Within the slider ranges the total cost lies in [30000, 80000]. */
  lemma CustoTotalBounds(i: State)
    requires InRange(i)
    ensures 30000.0 <= CustoTotal(i) <= 80000.0
  {
  }

  /** Within the slider ranges every denominator is positive, so every metric is defined. */
  lemma DenominatorsPositive(i: State)
    requires InRange(i)
    ensures i.numAnimais > 0.0 && i.receitaTotal > 0.0 && PesoTotalKg > 0.0
  {
  }

  /** Within the slider ranges the cost per animal lies in [15, 160]:
      30000 / 2000 at the cheapest, largest herd, 80000 / 500 at the dearest, smallest one. */
  lemma CustoPorAnimalBounds(i: State)
    requires InRange(i)
    ensures 15.0 <= CustoPorAnimal(i) <= 160.0
  {
    assert CustoPorAnimal(i) * i.numAnimais == CustoTotal(i);
    QuotientBounds(CustoPorAnimal(i), CustoTotal(i), i.numAnimais, 30000.0, 80000.0, 500.0, 2000.0);
  }

  /** Within the slider ranges the cost per kilogram lies in [7.5, 20]. */
  lemma CustoPorKgBounds(i: State)
    requires InRange(i)
    ensures 7.5 <= CustoPorKg(i) <= 20.0
  {
  }

  /** Within the slider ranges the gross margin lies in [0, 80]: revenue is at
      least 50000, which is at least the variable cost, so it never turns
      negative, and the variable cost is at least a fifth of revenue. */
  lemma MargemBrutaBounds(i: State)
    requires InRange(i)
    ensures 0.0 <= MargemBruta(i) <= 80.0
  {
    var r, v, m := i.receitaTotal, i.custoVariavel, MargemBruta(i);
    // r - v >= 0 and 100 * v >= 20 * r
    assert m * r == (r - v) * 100.0;
    SignOfFactor(m, r);
    assert (80.0 - m) * r == 100.0 * v - 20.0 * r;
    SignOfFactor(80.0 - m, r);
  }

  /** Within the slider ranges the profit lies in [-30000, 70000]. */
  lemma LucroBounds(i: State)
    requires InRange(i)
    ensures -30000.0 <= Lucro(i) <= 70000.0
  {
  }

  /** The metrics of the initial state. */
  lemma DefaultMetrics()
    ensures CustoTotal(Default()) == 50000.0
    ensures CustoPorAnimal(Default()) == 50.0
    ensures CustoPorKg(Default()) == 12.5
    ensures Lucro(Default()) == 15000.0
    ensures MargemBruta(Default()) == 3500.0 / 65.0
  {
  }

  /** The unit cost feeds no metric: two states that differ only in it have the same metrics. */
  lemma MetricsIgnoreCustoUnitario(i: State, v: real)
    ensures CustoTotal(Set(i, CustoUnitario, v)) == CustoTotal(i)
    ensures Lucro(Set(i, CustoUnitario, v)) == Lucro(i)
    ensures CustoPorKg(Set(i, CustoUnitario, v)) == CustoPorKg(i)
    ensures i.numAnimais != 0.0 ==> CustoPorAnimal(Set(i, CustoUnitario, v)) == CustoPorAnimal(i)
    ensures i.receitaTotal != 0.0 ==> MargemBruta(Set(i, CustoUnitario, v)) == MargemBruta(i)
  {
  }
}
