/** The five numeric inputs of the cost dashboard and the range sliders that
    set them (src/pages/Home/index.tsx, the `useState` hooks and the
    `<input type="range">` controls). */
module Inputs {

  /** The dashboard's input state: one field per `useState` hook. */
  datatype State = State(
    numAnimais: real,     // herd size
    custoUnitario: real,  // unit cost; shown on its slider, feeds no metric
    receitaTotal: real,   // total revenue
    custoVariavel: real,  // variable cost
    custoFixo: real       // fixed cost
  )

  /** The initial values passed to `useState`; they lie within every slider's range. */
  function Default(): (d: State)
    ensures InRange(d)
  {
    State(1000.0, 45.0, 65000.0, 30000.0, 20000.0)
  }

  /** One range slider per input, in the order they appear on the page. */
  datatype Slider = NumAnimais | CustoUnitario | ReceitaTotal | CustoVariavel | CustoFixo

  /** The slider's `min` attribute; every slider starts above zero. */
  function SliderMin(s: Slider): (r: real)
    ensures 0.0 < r
  {
    match s
    case NumAnimais => 500.0
    case CustoUnitario => 30.0
    case ReceitaTotal => 50000.0
    case CustoVariavel => 20000.0
    case CustoFixo => 10000.0
  }

  /** The slider's `max` attribute; every slider's range holds more than one value. */
  function SliderMax(s: Slider): (r: real)
    ensures SliderMin(s) < r
  {
    match s
    case NumAnimais => 2000.0
    case CustoUnitario => 60.0
    case ReceitaTotal => 100000.0
    case CustoVariavel => 50000.0
    case CustoFixo => 30000.0
  }

  /** The value a slider displays (its `value` attribute). */
  function Get(i: State, s: Slider): real {
    match s
    case NumAnimais => i.numAnimais
    case CustoUnitario => i.custoUnitario
    case ReceitaTotal => i.receitaTotal
    case CustoVariavel => i.custoVariavel
    case CustoFixo => i.custoFixo
  }

  predicate InBounds(s: Slider, v: real) {
    SliderMin(s) <= v <= SliderMax(s)
  }

  /** Every input lies within its slider's range. */
  predicate InRange(i: State) {
    && InBounds(NumAnimais, i.numAnimais)
    && InBounds(CustoUnitario, i.custoUnitario)
    && InBounds(ReceitaTotal, i.receitaTotal)
    && InBounds(CustoVariavel, i.custoVariavel)
    && InBounds(CustoFixo, i.custoFixo)
  }

  /** The `onChange` handler of slider `s`: its setter replaces that one input
      with the new value and keeps the other four. */
  function Set(i: State, s: Slider, v: real): (r: State)
    ensures Get(r, s) == v
    ensures forall t :: t != s ==> Get(r, t) == Get(i, t)
  {
    match s
    case NumAnimais => i.(numAnimais := v)
    case CustoUnitario => i.(custoUnitario := v)
    case ReceitaTotal => i.(receitaTotal := v)
    case CustoVariavel => i.(custoVariavel := v)
    case CustoFixo => i.(custoFixo := v)
  }

  /** Two input states are equal exactly when every slider shows the same value. */
  lemma {:induction false} GetExtensional(i: State, j: State)
    ensures (forall s :: Get(i, s) == Get(j, s)) <==> i == j
  {
    if forall s :: Get(i, s) == Get(j, s) {
      assert Get(i, NumAnimais) == Get(j, NumAnimais);
      assert Get(i, CustoUnitario) == Get(j, CustoUnitario);
      assert Get(i, ReceitaTotal) == Get(j, ReceitaTotal);
      assert Get(i, CustoVariavel) == Get(j, CustoVariavel);
      assert Get(i, CustoFixo) == Get(j, CustoFixo);
    }
  }

  /** InRange is the range condition of every slider. */
  lemma InRangeEverySlider(i: State)
    ensures InRange(i) <==> forall s :: InBounds(s, Get(i, s))
  {
    if forall s :: InBounds(s, Get(i, s)) {
      assert InBounds(NumAnimais, Get(i, NumAnimais));
      assert InBounds(CustoUnitario, Get(i, CustoUnitario));
      assert InBounds(ReceitaTotal, Get(i, ReceitaTotal));
      assert InBounds(CustoVariavel, Get(i, CustoVariavel));
      assert InBounds(CustoFixo, Get(i, CustoFixo));
    }
  }

  /** Moving a slider within its range keeps the whole state in range, and a
      value outside the range takes the state out of range. */
  lemma SetInRange(i: State, s: Slider, v: real)
    requires InRange(i)
    ensures InRange(Set(i, s, v)) <==> InBounds(s, v)
  {
    InRangeEverySlider(i);
    InRangeEverySlider(Set(i, s, v));
  }

  /** Putting the old value back undoes a slider move. */
  lemma SetUndo(i: State, s: Slider, v: real)
    ensures Set(Set(i, s, v), s, Get(i, s)) == i
  {
    GetExtensional(Set(Set(i, s, v), s, Get(i, s)), i);
  }

  /** A later move of the same slider overrides an earlier one. */
  lemma SetOverrides(i: State, s: Slider, v: real, w: real)
    ensures Set(Set(i, s, v), s, w) == Set(i, s, w)
  {
    GetExtensional(Set(Set(i, s, v), s, w), Set(i, s, w));
  }

  /** Moves of two different sliders commute. */
  lemma SetCommutes(i: State, s: Slider, v: real, t: Slider, w: real)
    requires s != t
    ensures Set(Set(i, s, v), t, w) == Set(Set(i, t, w), s, v)
  {
    GetExtensional(Set(Set(i, s, v), t, w), Set(Set(i, t, w), s, v));
  }
}
