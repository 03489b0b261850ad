/** The multiplicative congruential generator page
    (`src/pages/Multiplicativo.jsx`): `c = 0`, a modulus `m = 2^g`, a
    multiplier `3 + 8K` or `5 + 8K` unless one is given, and `D + 1` rows
    `x_i = (a * x_{i-1}) % m`. The page computes `2 ** g` as a double, which
    is `Infinity` from `g = 1024` on; the rows then read the modulus back
    with `toInt(m, 2)` and use 2. */
module Multiplicativo {
  import opened Options
  import opened JsInt
  import opened FormInput
  import opened Congruential

  /** The radio choice of the multiplier formula: `3 + 8K` or `5 + 8K`. */
  datatype Formula = Three | Five

  /** `toInt(aFormula, 3)`. */
  function FormulaBase(fm: Formula): int {
    match fm
    case Three => 3
    case Five => 5
  }

  /** The fields: `X0`, `K`, the optional `g`, the count `D`, the optional
      explicit multiplier, and the formula choice. */
  datatype Form = Form(x0: Field, k: Field, gInput: Field, dCount: Field, aOverride: Field, aFormula: Formula)

  /** `hasBase`: `X0` and `D` filled in, and the multiplier or `K`. */
  predicate Ready(f: Form) {
    Filled(f.x0) && Filled(f.dCount) && (Filled(f.aOverride) || Filled(f.k))
  }

  function Pow2(n: nat): (r: nat)
    ensures r >= 1
  {
    if n == 0 then 1 else 2 * Pow2(n - 1)
  }

  lemma {:induction false} Pow2Monotone(a: nat, b: nat)
    requires a <= b
    ensures Pow2(a) <= Pow2(b)
    decreases b
  {
    if a < b {
      Pow2Monotone(a, b - 1);
    }
  }

  /** `ceil(log2(d))`, computed on integers: the least `n` with `d <= 2^n`. */
  function CeilLog2(d: int): (n: nat)
    ensures d <= Pow2(n)
    ensures n > 0 ==> Pow2(n - 1) < d
    decreases d
  {
    if d <= 1 then 0 else 1 + CeilLog2((d + 1) / 2)
  }

  /** The largest exponent whose power of two is a finite double. */
  const MAX_EXP: nat := 1023

  /** `2 ** g` as a double: the exact power of two up to `2^1023`, and
      `Infinity` beyond. */
  function Pow2Double(g: nat): (v: Field)
    ensures g <= MAX_EXP <==> v.Finite?
    ensures g <= MAX_EXP ==> v == Finite(Pow2(g) as real)
  {
    if g <= MAX_EXP then Finite(Pow2(g) as real) else NotFinite
  }

  /** The derived parameters: multiplier, exponent, modulus (a double, so
      possibly `Infinity`) and count. */
  datatype Derived = Derived(a: int, g: int, m: Field, d: int)

  /** `toInt(derived.m, 2)`: the modulus the rows block uses. For an `m`
      that is a positive double, or `Infinity`, it is positive. */
  function Modulus(r: Derived): (n: int)
    ensures (r.m.Finite? && r.m.x >= 1.0) || r.m.NotFinite? ==> n >= 1
  {
    ToInt(r.m, 2)
  }

  /** The `derived` block: nothing until the form is ready; then
      `D = max(1, D)`, the explicit multiplier or the formula, `g` given or
      `ceil(log2 D) + 2`, raised to at least 3, and `m = 2 ** g`, which is
      `Infinity` once `g` passes 1023. */
  function Derive(f: Form): (r: Option<Derived>)
    ensures r.Some? <==> Ready(f)
    ensures r.Some? ==> r.value.d >= 1 && r.value.g >= 3
    ensures r.Some? && r.value.g <= MAX_EXP ==> r.value.m == Finite(Pow2(r.value.g) as real)
    ensures r.Some? && r.value.g > MAX_EXP ==> r.value.m == NotFinite
  {
    if !Ready(f) then None
    else
      var K := ToInt(f.k, 0);
      var D := Max(1, ToInt(f.dCount, 1));
      var A := if Filled(f.aOverride) then ToInt(f.aOverride, 0) else FormulaBase(f.aFormula) + 8 * K;
      var g0 := if Filled(f.gInput) then ToInt(f.gInput, 0) else CeilLog2(D) + 2;
      var g := Max(3, g0);
      Some(Derived(A, g, Pow2Double(g), D))
  }

  /** `D` is the count given, raised to at least 1; `g` is the one given or
      the derived one, raised to at least 3. The modulus the rows use is
      `2^g`, at least 8, while `g <= 1023`, and 2 beyond; it is even
      either way. */
  lemma DeriveFacts(f: Form)
    requires Ready(f)
    ensures var r := Derive(f).value;
      r.d == Max(1, ToInt(f.dCount, 1)) &&
      (Filled(f.gInput) ==> r.g == Max(3, ToInt(f.gInput, 0))) &&
      (!Filled(f.gInput) ==> r.g == Max(3, CeilLog2(r.d) + 2)) &&
      (r.g <= MAX_EXP ==> Modulus(r) == Pow2(r.g) && Modulus(r) >= 8) &&
      (r.g > MAX_EXP ==> Modulus(r) == 2) &&
      Modulus(r) % 2 == 0
  {
    var r := Derive(f).value;
    if r.g <= MAX_EXP {
      ToIntOfInt(Pow2(r.g), 2);
      Pow2Monotone(3, r.g);
      assert Pow2(3) == 8;
      Pow2Even(r.g);
    }
  }

  lemma Pow2Even(n: nat)
    requires n >= 1
    ensures Pow2(n) % 2 == 0
  {
    assert Pow2(n) == 2 * Pow2(n - 1);
  }

  /** Without an explicit multiplier, `a = 3 + 8K` or `5 + 8K`: 3 or 5
      modulo 8, and so odd. */
  lemma MultiplierOdd(f: Form)
    requires Ready(f) && !Filled(f.aOverride)
    ensures Derive(f).value.a == FormulaBase(f.aFormula) + 8 * ToInt(f.k, 0)
    ensures Derive(f).value.a % 8 == FormulaBase(f.aFormula)
    ensures Derive(f).value.a % 2 == 1
  {
    var b, K := FormulaBase(f.aFormula), ToInt(f.k, 0);
    assert Derive(f).value.a == b + 8 * K;
    Residues(b, K);
  }

  lemma Residues(b: int, K: int)
    requires b == 3 || b == 5
    ensures (b + 8 * K) % 8 == b && (b + 8 * K) % 2 == 1
  {
    EighthRemainder(b + 8 * K, K, b);
    HalfRemainder(b + 8 * K, 4 * K + (b - 1) / 2, 1);
  }

  lemma EighthRemainder(n: int, q: int, r: int)
    requires n == 8 * q + r && 0 <= r < 8
    ensures n % 8 == r
  {
  }

  lemma HalfRemainder(n: int, q: int, r: int)
    requires n == 2 * q + r && 0 <= r < 2
    ensures n % 2 == r
  {
  }

  /** With `g` derived from `D`, the modulus covers the count four times
      over, `m >= 4 * D`, as long as `2^g` is a finite double. */
  lemma ModulusCoversCount(f: Form)
    requires Ready(f) && !Filled(f.gInput)
    ensures Derive(f).value.g <= MAX_EXP ==> Modulus(Derive(f).value) >= 4 * Derive(f).value.d
  {
    var r := Derive(f).value;
    if r.g <= MAX_EXP {
      ToIntOfInt(Pow2(r.g), 2);
      var n := CeilLog2(r.d);
      Pow2Monotone(n + 2, r.g);
      assert Pow2(n + 2) == 4 * Pow2(n);
    }
  }

  /** A count large enough to derive `g = 1024` gives the page an infinite
      `m`, and its rows fall back to the modulus 2. */
  lemma HugeCountFallsBack(f: Form)
    requires Ready(f) && !Filled(f.gInput) && Max(1, ToInt(f.dCount, 1)) > Pow2(MAX_EXP - 1)
    ensures Derive(f).value.m == NotFinite && Modulus(Derive(f).value) == 2
  {
    var r := Derive(f).value;
    var n := CeilLog2(r.d);
    if n < MAX_EXP {
      Pow2Monotone(n, MAX_EXP - 1);
      assert false;
    }
  }

  /** The rows the page shows: none until the form is ready, then the first
      `D + 1` values from `X0` with no increment. */
  function Rows(f: Form): seq<Row> {
    match Derive(f)
    case None => []
    case Some(r) => Table(r.a, 0, Modulus(r), ToInt(f.x0, 0), r.d + 1)
  }

  /** The rows block: it reads `a`, `m` and `D` back with `toInt` and runs
      the loop for `D + 1` rows. */
  method GenerateRows(f: Form) returns (rows: seq<Row>)
    ensures rows == Rows(f)
  {
    var r := Derive(f);
    if r.None? {
      return [];
    }
    var x0 := ToInt(f.x0, 0);
    ToIntOfInt(r.value.a, 0);
    ToIntOfInt(r.value.d, 1);
    var a := ToInt(Finite(r.value.a as real), 0);
    var m := ToInt(r.value.m, 2);
    var d := ToInt(Finite(r.value.d as real), 1);
    rows := Generate(a, 0, m, x0, d + 1);
  }

  /** A ready form shows `D + 1` rows numbered 1 to `D + 1`; the first starts
      from `X0` and each later one from the previous row's value; each new
      value is `a * xim1` less a multiple of `m`, of magnitude below `m`. */
  lemma RowsShape(f: Form, j: nat)
    ensures !Ready(f) ==> Rows(f) == []
    ensures Ready(f) ==> |Rows(f)| == Derive(f).value.d + 1
    ensures Ready(f) && j < |Rows(f)| ==>
      var rs, r := Rows(f), Derive(f).value;
      rs[j].i == j + 1 &&
      rs[j].xim1 == (if j == 0 then ToInt(f.x0, 0) else rs[j - 1].xi) &&
      r.a * rs[j].xim1 + 0 == JsQuot(r.a * rs[j].xim1 + 0, Modulus(r)) * Modulus(r) + rs[j].xi &&
      -Modulus(r) < rs[j].xi < Modulus(r)
  {
    if Ready(f) {
      var r := Derive(f).value;
      if j < r.d + 1 {
        TableRow(r.a, 0, Modulus(r), ToInt(f.x0, 0), r.d + 1, j);
      }
    }
  }

  /** With the formula's odd multiplier and an odd `X0`, every value is odd:
      the modulus is a power of two, so no step can make a value even. */
  lemma OddSeedStaysOdd(f: Form, j: nat)
    requires Ready(f) && !Filled(f.aOverride) && ToInt(f.x0, 0) % 2 == 1
    requires j < |Rows(f)|
    ensures Rows(f)[j].xi % 2 == 1
  {
    var r := Derive(f).value;
    DeriveFacts(f);
    MultiplierOdd(f);
    RowValues(r.a, 0, Modulus(r), ToInt(f.x0, 0), r.d + 1, j);
    OddStaysOdd(r.a, Modulus(r), ToInt(f.x0, 0), j + 1);
  }

  /** `x0Par`: `X0` is filled in and `toInt(X0) % 2 === 0`. */
  predicate X0Par(f: Form) {
    Filled(f.x0) && JsRem(ToInt(f.x0, 0), 2) == 0
  }

  /** The warning shows exactly for a filled-in even `X0`, negative values
      included. */
  lemma X0ParIsEven(f: Form)
    ensures X0Par(f) <==> Filled(f.x0) && ToInt(f.x0, 0) % 2 == 0
  {
    var x := ToInt(f.x0, 0);
    var r := JsRem(x, 2);
    assert x == JsQuot(x, 2) * 2 + r;
  }

  /** The warning does not stop the table: a ready form with an even `X0`
      still shows its `D + 1` rows, and every value in them is even. */
  lemma EvenSeedStillGenerates(f: Form, j: nat)
    requires Ready(f) && X0Par(f)
    ensures |Rows(f)| == Derive(f).value.d + 1
    ensures j < |Rows(f)| ==> Rows(f)[j].xi % 2 == 0
  {
    var r := Derive(f).value;
    X0ParIsEven(f);
    DeriveFacts(f);
    if j < r.d + 1 {
      RowValues(r.a, 0, Modulus(r), ToInt(f.x0, 0), r.d + 1, j);
      EvenStaysEven(r.a, Modulus(r), ToInt(f.x0, 0), j + 1);
    }
  }
}
