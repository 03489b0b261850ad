/** The row loop shared by the two congruential generator pages
    (`src/pages/Lineal.jsx` and `src/pages/Multiplicativo.jsx`): starting
    from `X0`, row `i` shows the previous value, the next value
    `x_i = (a * x_{i-1} + c) % m` (with JavaScript's truncating `%`; the
    multiplicative page is the case `c = 0`) and its scaled form
    `r_i = x_i / (m - 1)`. */
module Congruential {
  import opened JsInt

  /** A row of the table: its index, the previous value, the new value and
      the new value scaled into [0, 1]. */
  datatype Row = Row(i: nat, xim1: int, xi: int, ri: real)

  /** One step of the generator. */
  function Next(a: int, c: int, m: int, x: int): int
    requires m > 0
  {
    JsRem(a * x + c, m)
  }

  /** The value after `n` steps from `x0`. */
  function X(a: int, c: int, m: int, x0: int, n: nat): int
    requires m > 0
  {
    if n == 0 then x0 else Next(a, c, m, X(a, c, m, x0, n - 1))
  }

  /** `ri = M > 1 ? xi / (M - 1) : 0`. */
  function Scaled(x: int, m: int): real {
    if m > 1 then x as real / (m - 1) as real else 0.0
  }

  /** Row `i`, for `i >= 1`. */
  function RowAt(a: int, c: int, m: int, x0: int, i: nat): Row
    requires m > 0 && i >= 1
  {
    Row(i, X(a, c, m, x0, i - 1), X(a, c, m, x0, i), Scaled(X(a, c, m, x0, i), m))
  }

  /** The first `n` rows. */
  function Table(a: int, c: int, m: int, x0: int, n: nat): seq<Row>
    requires m > 0
  {
    seq(n, j requires 0 <= j < n => RowAt(a, c, m, x0, j + 1))
  }

  /** The loop `for (let i = 1; i <= total; i++)`, carrying `prev`. */
  method Generate(a: int, c: int, m: int, x0: int, total: nat) returns (rows: seq<Row>)
    requires m > 0
    ensures rows == Table(a, c, m, x0, total)
  {
    rows := [];
    var prev := x0;
    var i := 1;
    while i <= total
      invariant 1 <= i <= total + 1
      invariant rows == Table(a, c, m, x0, i - 1)
      invariant prev == X(a, c, m, x0, i - 1)
    {
      var xi := JsRem(a * prev + c, m);
      var ri := if m > 1 then xi as real / (m - 1) as real else 0.0;
      rows := rows + [Row(i, prev, xi, ri)];
      assert rows == Table(a, c, m, x0, i);
      prev := xi;
      i := i + 1;
    }
  }

  /** Row `j` of the table: index `j + 1`, starting from `x0` in the first
      row and from the previous row's value after it, with a new value
      congruent to `a * xim1 + c` modulo `m` and of magnitude below `m`. */
  lemma TableRow(a: int, c: int, m: int, x0: int, n: nat, j: nat)
    requires m > 0 && j < n
    ensures |Table(a, c, m, x0, n)| == n
    ensures var r := Table(a, c, m, x0, n)[j];
      r.i == j + 1 &&
      r.xim1 == (if j == 0 then x0 else Table(a, c, m, x0, n)[j - 1].xi) &&
      a * r.xim1 + c == JsQuot(a * r.xim1 + c, m) * m + r.xi &&
      -m < r.xi < m
  {
  }

  /** With non-negative `a`, `c` and `x0` every value stays in [0, m). */
  lemma {:induction false} ValuesInRange(a: int, c: int, m: int, x0: int, n: nat)
    requires m > 0 && a >= 0 && c >= 0 && x0 >= 0
    ensures 0 <= X(a, c, m, x0, n + 1) < m
  {
    if n > 0 {
      ValuesInRange(a, c, m, x0, n - 1);
    }
    var x := X(a, c, m, x0, n);
    assert a * x + c >= 0 by {
      assert x >= 0;
    }
  }

  /** With non-negative `a`, `c` and `x0` every row's value lies in [0, m)
      and its scaled value in [0, 1]. */
  lemma RowsInRange(a: int, c: int, m: int, x0: int, n: nat, j: nat)
    requires m > 1 && a >= 0 && c >= 0 && x0 >= 0 && j < n
    ensures |Table(a, c, m, x0, n)| == n
    ensures 0 <= Table(a, c, m, x0, n)[j].xi < m
    ensures 0.0 <= Table(a, c, m, x0, n)[j].ri <= 1.0
  {
    ValuesInRange(a, c, m, x0, j);
    ScaledInUnit(X(a, c, m, x0, j + 1), m);
  }

  /** `x / (m - 1)` lies in [0, 1] for `x` in [0, m). */
  lemma ScaledInUnit(x: int, m: int)
    requires m > 1 && 0 <= x < m
    ensures 0.0 <= Scaled(x, m) <= 1.0
  {
    var d := (m - 1) as real;
    assert Scaled(x, m) * d == x as real;
  }

  /** Some value occurs twice in `xs`. */
  predicate Repeats(xs: seq<int>) {
    exists j, k :: 0 <= j < k < |xs| && xs[j] == xs[k]
  }

  /** The values `xi` of a table, in order. */
  function Values(t: seq<Row>): (xs: seq<int>)
    ensures |xs| == |t| && forall i :: 0 <= i < |t| ==> xs[i] == t[i].xi
  {
    seq(|t|, i requires 0 <= i < |t| => t[i].xi)
  }

  /** Pigeonhole: more than `m` values in [0, m) contain a repetition. */
  lemma {:induction false} Pigeonhole(xs: seq<int>, m: nat)
    requires m >= 1 && |xs| > m
    requires forall i :: 0 <= i < |xs| ==> 0 <= xs[i] < m
    ensures Repeats(xs)
    decreases m
  {
    var n := |xs| - 1;
    var v := xs[n];
    if m == 1 {
      assert xs[0] == 0 == xs[1];
    } else if exists j :: 0 <= j < n && xs[j] == v {
      var j :| 0 <= j < n && xs[j] == v;
      assert xs[j] == xs[n];
    } else {
      // Close the gap left by `v`: the other values fit in [0, m - 1).
      var ys := seq(n, i requires 0 <= i < n => if xs[i] > v then xs[i] - 1 else xs[i]);
      Pigeonhole(ys, m - 1);
      var j, k :| 0 <= j < k < |ys| && ys[j] == ys[k];
      assert xs[j] == xs[k];
    }
  }

  /** With non-negative `a`, `c` and `x0`, a table of `m + 1` rows shows some
      value twice. */
  lemma TableRepeats(a: int, c: int, m: int, x0: int)
    requires m > 1 && a >= 0 && c >= 0 && x0 >= 0
    ensures Repeats(Values(Table(a, c, m, x0, m + 1)))
  {
    var xs := Values(Table(a, c, m, x0, m + 1));
    forall i | 0 <= i < |xs|
      ensures 0 <= xs[i] < m
    {
      ValuesInRange(a, c, m, x0, i);
    }
    Pigeonhole(xs, m);
  }

  /** Row `j` holds the values after `j` and after `j + 1` steps. */
  lemma RowValues(a: int, c: int, m: int, x0: int, n: nat, j: nat)
    requires m > 0 && j < n
    ensures |Table(a, c, m, x0, n)| == n
    ensures Table(a, c, m, x0, n)[j].xim1 == X(a, c, m, x0, j)
    ensures Table(a, c, m, x0, n)[j].xi == X(a, c, m, x0, j + 1)
  {
  }

  /** The extra row need not repeat the first value: with `a = 2`, `c = 0`,
      `m = 4` and `x0 = 1` the values are 2, 0, 0, 0, 0, so the last of the
      `m + 1` rows shows neither `x0` nor the first row's value. */
  lemma LastRowNotFirstValue()
    ensures var t := Table(2, 0, 4, 1, 5);
      t[4].xi == 0 && t[0].xim1 == 1 && t[0].xi == 2
  {
    SampleValues();
    RowValues(2, 0, 4, 1, 5, 4);
    RowValues(2, 0, 4, 1, 5, 0);
  }

  /** The values of that example. */
  lemma SampleValues()
    ensures X(2, 0, 4, 1, 0) == 1 && X(2, 0, 4, 1, 1) == 2 && X(2, 0, 4, 1, 5) == 0
  {
    FirstSteps(2, 4, 1);
    ZeroStays(2, 4, 1, 2, 5);
  }

  lemma FirstSteps(a: int, m: int, x0: int)
    requires a == 2 && m == 4 && x0 == 1
    ensures X(a, 0, m, x0, 1) == 2 && X(a, 0, m, x0, 2) == 0
  {
    assert X(a, 0, m, x0, 1) == JsRem(2, 4);
    assert X(a, 0, m, x0, 2) == JsRem(4, 4);
  }

  /** Once the value is 0 with no increment, it stays 0. */
  lemma {:induction false} ZeroStays(a: int, m: int, x0: int, n: nat, k: nat)
    requires m > 0 && n <= k && X(a, 0, m, x0, n) == 0
    ensures X(a, 0, m, x0, k) == 0
    decreases k - n
  {
    if n < k {
      assert X(a, 0, m, x0, n + 1) == JsRem(a * 0 + 0, m);
      ZeroStays(a, m, x0, n + 1, k);
    }
  }

  /** With odd `a` and an even modulus, an odd start keeps every value odd. */
  lemma {:induction false} OddStaysOdd(a: int, m: int, x0: int, n: nat)
    requires m > 0 && m % 2 == 0 && a % 2 == 1 && x0 % 2 == 1
    ensures X(a, 0, m, x0, n) % 2 == 1
  {
    if n > 0 {
      OddStaysOdd(a, m, x0, n - 1);
      var x := X(a, 0, m, x0, n - 1);
      var p := a * x + 0;
      OddProduct(a, x);
      var q := JsQuot(p, m);
      EvenMultiple(q, m);
      OddRemainder(p, q * m, JsRem(p, m));
    }
  }

  /** With an even modulus, an even start keeps every value even. */
  lemma {:induction false} EvenStaysEven(a: int, m: int, x0: int, n: nat)
    requires m > 0 && m % 2 == 0 && x0 % 2 == 0
    ensures X(a, 0, m, x0, n) % 2 == 0
  {
    if n > 0 {
      EvenStaysEven(a, m, x0, n - 1);
      var x := X(a, 0, m, x0, n - 1);
      var p := a * x + 0;
      EvenMultiple(a, x);
      var q := JsQuot(p, m);
      EvenMultiple(q, m);
      EvenRemainder(p, q * m, JsRem(p, m));
    }
  }

  lemma OddProduct(a: int, x: int)
    requires a % 2 == 1 && x % 2 == 1
    ensures (a * x + 0) % 2 == 1
  {
    var i, j := a / 2, x / 2;
    assert a == 2 * i + 1 && x == 2 * j + 1;
    assert a * x == 2 * (2 * i * j + i + j) + 1;
  }

  lemma EvenMultiple(q: int, m: int)
    requires m % 2 == 0
    ensures (q * m) % 2 == 0
  {
    var h := m / 2;
    assert q * m == 2 * (q * h);
  }

  lemma EvenRemainder(p: int, e: int, r: int)
    requires p == e + r && p % 2 == 0 && e % 2 == 0
    ensures r % 2 == 0
  {
  }

  lemma OddRemainder(p: int, e: int, r: int)
    requires p == e + r && p % 2 == 1 && e % 2 == 0
    ensures r % 2 == 1
  {
  }
}
