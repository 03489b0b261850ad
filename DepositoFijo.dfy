/** The fixed-rate deposit (`src/pages/ejercicios/DepositoFijo.jsx`): an
    initial capital compounded yearly at a constant annual rate given in
    percent, for the whole years in the term. */
module DepositoFijo {
  import opened Options
  import opened Compounding

  /** The three fields of the form: `None` for an empty field, otherwise the
      number it reads as. */
  datatype Form = Form(capital0: Option<real>, tasaAnualPct: Option<real>, anios: Option<real>)

  /** `ready`: every field filled in, a positive capital and a positive term. */
  predicate Ready(f: Form) {
    f.capital0.Some? && f.tasaAnualPct.Some? && f.anios.Some? &&
    f.capital0.value > 0.0 && f.anios.value > 0.0
  }

  /** `i = tasaAnualPct / 100`. */
  function Rate(pct: real): (i: real)
    ensures i * 100.0 == pct
  {
    pct / 100.0
  }

  /** What the page shows: the table and the final capital, or no rows and
      no final capital when the form is not ready. */
  datatype Deposit = Deposit(rows: seq<Row>, kFinal: Option<real>)

  function Plan(f: Form): Deposit {
    if !Ready(f) then Deposit([], None)
    else
      var c0, i, n := f.capital0.value, Rate(f.tasaAnualPct.value), Years(f.anios.value);
      Deposit(Schedule(c0, i, n), Some(Balance(c0, i, n)))
  }

  /** The page's computation of `rows` and `kFinal`. */
  method Simulate(f: Form) returns (d: Deposit)
    ensures d == Plan(f)
  {
    if !Ready(f) {
      return Deposit([], None);
    }
    var i := Rate(f.tasaAnualPct.value);
    var rows, k := Compound(f.capital0.value, i, f.anios.value);
    d := Deposit(rows, Some(k));
  }

  /** Without a ready form there is nothing to show; with one, there is one
      row per whole year of the term, the first row starts from the initial
      capital, and the final capital is the last row's end capital, which
      is `capital0 * (1 + i)^floor(anios)`. */
  lemma PlanFacts(f: Form)
    ensures !Ready(f) ==> Plan(f) == Deposit([], None)
    ensures Ready(f) ==> Years(f.anios.value) == f.anios.value.Floor
    ensures Ready(f) ==> |Plan(f).rows| == Years(f.anios.value)
    ensures Ready(f) ==> Plan(f).kFinal.Some?
    ensures Ready(f) ==>
      Plan(f).kFinal.value == f.capital0.value * Pow(1.0 + Rate(f.tasaAnualPct.value), Years(f.anios.value))
    ensures Ready(f) && Plan(f).rows != [] ==>
      Plan(f).rows[0].kapT == f.capital0.value && Plan(f).rows[|Plan(f).rows| - 1].kapT1 == Plan(f).kFinal.value
  {
    if Ready(f) {
      var c0, i, n := f.capital0.value, Rate(f.tasaAnualPct.value), Years(f.anios.value);
      BalanceClosedForm(c0, i, n);
      if n > 0 {
        ScheduleRow(c0, i, n, 0);
        ScheduleEnd(c0, i, n);
      }
    }
  }

  /** Every row of a ready form: interest `kap_t * i`, end capital
      `kap_t + interes`, and a start equal to the previous row's end. */
  lemma RowsChain(f: Form, j: nat)
    requires Ready(f) && j < |Plan(f).rows|
    ensures var r, i := Plan(f).rows, Rate(f.tasaAnualPct.value);
      r[j].anio == j + 1 && r[j].interes == r[j].kapT * i && r[j].kapT1 == r[j].kapT + r[j].interes &&
      r[j].kapT == (if j == 0 then f.capital0.value else r[j - 1].kapT1)
  {
    ScheduleRow(f.capital0.value, Rate(f.tasaAnualPct.value), Years(f.anios.value), j);
  }

  /** With a non-negative rate the capital never falls: each row ends with at
      least what it started with, and no row starts below the initial
      capital. */
  lemma CapitalGrows(f: Form, j: nat)
    requires Ready(f) && f.tasaAnualPct.value >= 0.0 && j < |Plan(f).rows|
    ensures f.capital0.value <= Plan(f).rows[j].kapT <= Plan(f).rows[j].kapT1
  {
    ScheduleGrows(f.capital0.value, Rate(f.tasaAnualPct.value), Years(f.anios.value), j);
  }
}
