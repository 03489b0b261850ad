/** The variable-rate deposit (`src/pages/ejercicios/DepositoVariable.jsx`):
    the annual rate is chosen once from the initial capital by a step
    function, and the capital is then compounded yearly at that rate for the
    whole years in the term. */
module DepositoVariable {
  import opened Options
  import opened Compounding

  /** The two fields of the form: `None` for an empty field, otherwise the
      number it reads as. */
  datatype Form = Form(capital0: Option<real>, anios: Option<real>)

  /** `ready`: both fields filled in, a positive capital and a positive term. */
  predicate Ready(f: Form) {
    f.capital0.Some? && f.anios.Some? && f.capital0.value > 0.0 && f.anios.value > 0.0
  }

  /** `Number(capital0)`: an empty field reads as 0. */
  function Capital(f: Form): real {
    if f.capital0.None? then 0.0 else f.capital0.value
  }

  /** `tasa`: 3.5% up to 10 000, 3.7% up to 100 000, 4% above, and `null`
      for a capital that is not positive. */
  function Tasa(k: real): Option<real> {
    if k > 0.0 && k <= 10000.0 then Some(0.035)
    else if k > 10000.0 && k <= 100000.0 then Some(0.037)
    else if k > 100000.0 then Some(0.04)
    else None
  }

  /** What the page shows: the table and the final capital, or no rows and
      no final capital when the form is not ready or there is no rate. */
  datatype Deposit = Deposit(rows: seq<Row>, kFinal: Option<real>)

  function Plan(f: Form): Deposit {
    var tasa := Tasa(Capital(f));
    if !Ready(f) || tasa.None? then Deposit([], None)
    else
      var c0, n := f.capital0.value, Years(f.anios.value);
      Deposit(Schedule(c0, tasa.value, n), Some(Balance(c0, tasa.value, n)))
  }

  /** The page's computation: the rate from the form, then `rows` and `kFinal`. */
  method Simulate(f: Form) returns (d: Deposit)
    ensures d == Plan(f)
  {
    var tasa := Tasa(Capital(f));
    if !Ready(f) || tasa.None? {
      return Deposit([], None);
    }
    var rows, k := Compound(f.capital0.value, tasa.value, f.anios.value);
    d := Deposit(rows, Some(k));
  }

  /** The rate is one of the three bands exactly on positive capitals, and
      `null` exactly on the others. */
  lemma TasaBands(k: real)
    ensures Tasa(k).None? <==> k <= 0.0
    ensures 0.0 < k <= 10000.0 <==> Tasa(k) == Some(0.035)
    ensures 10000.0 < k <= 100000.0 <==> Tasa(k) == Some(0.037)
    ensures 100000.0 < k <==> Tasa(k) == Some(0.04)
  {
  }

  /** A larger capital never gets a smaller rate. */
  lemma TasaMonotone(a: real, b: real)
    requires 0.0 < a <= b
    ensures Tasa(a).Some? && Tasa(b).Some? && Tasa(a).value <= Tasa(b).value
  {
  }

  /** A ready form always has a rate, so it always shows a table. */
  lemma ReadyHasTasa(f: Form)
    requires Ready(f)
    ensures Tasa(Capital(f)).Some?
    ensures Plan(f).kFinal.Some?
  {
  }

  /** Without a ready form there is nothing to show; with one, one row per
      whole year of the term, the first row starts from the initial capital,
      and the final capital is the last row's end capital, which is
      `capital0 * (1 + tasa)^floor(anios)`. */
  lemma PlanFacts(f: Form)
    ensures !Ready(f) ==> Plan(f) == Deposit([], None)
    ensures Ready(f) ==> Years(f.anios.value) == f.anios.value.Floor
    ensures Ready(f) ==> |Plan(f).rows| == Years(f.anios.value)
    ensures Ready(f) ==> Tasa(f.capital0.value).Some? && Plan(f).kFinal.Some?
    ensures Ready(f) ==>
      Plan(f).kFinal.value == f.capital0.value * Pow(1.0 + Tasa(f.capital0.value).value, Years(f.anios.value))
    ensures Ready(f) && Plan(f).rows != [] ==>
      Plan(f).rows[0].kapT == f.capital0.value && Plan(f).rows[|Plan(f).rows| - 1].kapT1 == Plan(f).kFinal.value
  {
    if Ready(f) {
      var c0, n := f.capital0.value, Years(f.anios.value);
      var i := Tasa(c0).value;
      BalanceClosedForm(c0, i, n);
      if n > 0 {
        ScheduleRow(c0, i, n, 0);
        ScheduleEnd(c0, i, n);
      }
    }
  }

  /** The rate is fixed once from the initial capital: every row, however
      large its capital has grown, earns `kap_t * tasa(capital0)`, and its
      end capital is `kap_t * (1 + tasa(capital0))`. */
  lemma RateFixed(f: Form, j: nat)
    requires Ready(f) && j < |Plan(f).rows|
    ensures var r, i := Plan(f).rows, Tasa(f.capital0.value).value;
      r[j].interes == r[j].kapT * i && r[j].kapT1 == r[j].kapT * (1.0 + i) &&
      r[j].kapT == (if j == 0 then f.capital0.value else r[j - 1].kapT1)
  {
    ScheduleRow(f.capital0.value, Tasa(f.capital0.value).value, Years(f.anios.value), j);
  }

  /** A deposit of 10 000 earns 3.5% and has grown to 10 350 after a year,
      a capital that would get 3.7%; the second year still earns 3.5%. */
  lemma RateNotReevaluated()
    ensures var f := Form(Some(10000.0), Some(2.0));
      |Plan(f).rows| == 2 && Plan(f).rows[1].kapT == 10350.0 && Tasa(10350.0) == Some(0.037) &&
      Plan(f).rows[1].interes == 10350.0 * 0.035
  {
    var f := Form(Some(10000.0), Some(2.0));
    RateFixed(f, 1);
    RateFixed(f, 0);
  }

  /** The capital never falls, since every rate is positive. */
  lemma CapitalGrows(f: Form, j: nat)
    requires Ready(f) && j < |Plan(f).rows|
    ensures f.capital0.value <= Plan(f).rows[j].kapT <= Plan(f).rows[j].kapT1
  {
    ScheduleGrows(f.capital0.value, Tasa(f.capital0.value).value, Years(f.anios.value), j);
  }
}
