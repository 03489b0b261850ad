/** The linear congruential generator page (`src/pages/Lineal.jsx`): the
    parameters `a` and `m` derived from the form, and the `m + 1` rows
    `x_i = (a * x_{i-1} + c) % m`, `r_i = x_i / (m - 1)`. */
module Lineal {
  import opened Options
  import opened FormInput
  import opened JsInt
  import opened Congruential

  /** The five fields: `X0`, `K`, `c`, `P` (the modulus) and the optional
      explicit multiplier. */
  datatype Form = Form(x0: Field, k: Field, c: Field, p: Field, aInput: Field)

  /** `hasAll`: `X0`, `c` and `P` filled in, and the multiplier or `K`. */
  predicate Ready(f: Form) {
    Filled(f.x0) && Filled(f.c) && Filled(f.p) && (Filled(f.aInput) || Filled(f.k))
  }

  /** The derived multiplier and modulus. */
  datatype Params = Params(a: int, m: int)

  /** The `useMemo` block deriving `a` and `m`: nothing until the form is
      ready; then the explicit multiplier or `1 + 4K`, and the modulus `P`
      raised to at least 2. */
  function Derive(f: Form): (r: Option<Params>)
    ensures r.Some? <==> Ready(f)
    ensures r.Some? ==> r.value.m >= 2
  {
    if !Ready(f) then None
    else
      var K := ToInt(f.k, 0);
      var P := Max(2, ToInt(f.p, 2));
      var A := if Filled(f.aInput) then ToInt(f.aInput, 0) else 1 + 4 * K;
      Some(Params(A, P))
  }

  /** The multiplier is the explicit one when it is given and `1 + 4K`
      otherwise, which is 1 modulo 4; the modulus is `P` when `P` is at
      least 2 and 2 otherwise. */
  lemma DeriveFacts(f: Form)
    requires Ready(f)
    ensures Filled(f.aInput) ==> Derive(f).value.a == ToInt(f.aInput, 0)
    ensures !Filled(f.aInput) ==> Derive(f).value.a == 1 + 4 * ToInt(f.k, 0) && Derive(f).value.a % 4 == 1
    ensures ToInt(f.p, 2) >= 2 ==> Derive(f).value.m == ToInt(f.p, 2)
    ensures ToInt(f.p, 2) < 2 ==> Derive(f).value.m == 2
  {
  }

  /** The rows the page shows: none until the form is ready, then the first
      `m + 1` values from `X0`. */
  function Rows(f: Form): seq<Row> {
    match Derive(f)
    case None => []
    case Some(d) => Table(d.a, ToInt(f.c, 0), d.m, ToInt(f.x0, 0), d.m + 1)
  }

  /** The rows block: it reads the derived `a` and `m` back with `toInt`,
      raises `M` to at least 2 once more and runs the loop for `M + 1` rows. */
  method GenerateRows(f: Form) returns (rows: seq<Row>)
    ensures rows == Rows(f)
  {
    var d := Derive(f);
    if d.None? {
      return [];
    }
    var x0 := ToInt(f.x0, 0);
    var c := ToInt(f.c, 0);
    ToIntOfInt(d.value.m, 2);
    ToIntOfInt(d.value.a, 0);
    var m := Max(2, ToInt(Finite(d.value.m as real), 2));
    var a := ToInt(Finite(d.value.a as real), 0);
    rows := Generate(a, c, m, x0, m + 1);
  }

  /** A ready form shows `m + 1` rows numbered 1 to `m + 1`; the first starts
      from `X0` and each later one from the previous row's value; each new
      value is `a * xim1 + c` less a multiple of `m`, of magnitude below
      `m`. A form that is not ready shows nothing. */
  lemma RowsShape(f: Form, j: nat)
    ensures !Ready(f) ==> Rows(f) == []
    ensures Ready(f) ==> |Rows(f)| == Derive(f).value.m + 1
    ensures Ready(f) && j < |Rows(f)| ==>
      var r, d, c := Rows(f), Derive(f).value, ToInt(f.c, 0);
      r[j].i == j + 1 &&
      r[j].xim1 == (if j == 0 then ToInt(f.x0, 0) else r[j - 1].xi) &&
      d.a * r[j].xim1 + c == JsQuot(d.a * r[j].xim1 + c, d.m) * d.m + r[j].xi &&
      -d.m < r[j].xi < d.m
  {
    if Ready(f) {
      var d := Derive(f).value;
      if j < d.m + 1 {
        TableRow(d.a, ToInt(f.c, 0), d.m, ToInt(f.x0, 0), d.m + 1, j);
      }
    }
  }

  /** With non-negative `a`, `X0` and `c` every value lies in [0, m) and
      every `r_i` in [0, 1]. */
  lemma RowsInRange(f: Form, j: nat)
    requires Ready(f) && Derive(f).value.a >= 0 && ToInt(f.x0, 0) >= 0 && ToInt(f.c, 0) >= 0
    requires j < |Rows(f)|
    ensures 0 <= Rows(f)[j].xi < Derive(f).value.m
    ensures 0.0 <= Rows(f)[j].ri <= 1.0
  {
    var d := Derive(f).value;
    Congruential.RowsInRange(d.a, ToInt(f.c, 0), d.m, ToInt(f.x0, 0), d.m + 1, j);
  }

  /** With non-negative `a`, `X0` and `c` the `m + 1` rows show some value
      twice. */
  lemma RowsRepeat(f: Form)
    requires Ready(f) && Derive(f).value.a >= 0 && ToInt(f.x0, 0) >= 0 && ToInt(f.c, 0) >= 0
    ensures Repeats(Values(Rows(f)))
  {
    var d := Derive(f).value;
    TableRepeats(d.a, ToInt(f.c, 0), d.m, ToInt(f.x0, 0));
  }

  /** The extra row is not always a repetition of the first value: with
      `X0 = 1`, `c = 0`, `P = 4` and `a = 2` the last row shows 0 while
      `X0` is 1 and the first value is 2. */
  lemma ExtraRowNotFirstValue()
    ensures var f := Form(Finite(1.0), Empty, Finite(0.0), Finite(4.0), Finite(2.0));
      var r := Rows(f);
      Ready(f) && |r| == 5 && r[4].xi == 0 && r[0].xim1 == 1 && r[0].xi == 2
  {
    var f := Form(Finite(1.0), Empty, Finite(0.0), Finite(4.0), Finite(2.0));
    assert Derive(f) == Some(Params(2, 4));
    LastRowNotFirstValue();
  }
}
