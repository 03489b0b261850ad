/** The yearly compounding loop of both deposit pages
    (`src/pages/ejercicios/DepositoFijo.jsx` and `DepositoVariable.jsx`):
    starting from the initial capital, each year `t = 1, 2, ...` while
    `t <= anios` shows the capital at the start of the year, the interest
    `K * i` and the capital `K + K * i` at its end, which becomes the next
    year's capital. */
module Compounding {

  /** One year of the table: its number, the capital at its start, the
      interest earned and the capital at its end. */
  datatype Row = Row(anio: nat, kapT: real, interes: real, kapT1: real)

  function Pow(x: real, n: nat): real {
    if n == 0 then 1.0 else x * Pow(x, n - 1)
  }

  /** The number of years the loop `for (t = 1; t <= n; t++)` runs: the whole
      years in `n`, and none when `n` is below 1. */
  function Years(n: real): (y: nat)
    ensures n < 1.0 ==> y == 0
    ensures n >= 1.0 ==> y as real <= n < y as real + 1.0
    ensures n >= 0.0 ==> y == n.Floor
  {
    if n < 1.0 then 0 else n.Floor
  }

  /** The loop's `t <= n` holds exactly for the years the loop runs. */
  lemma YearsBound(n: real, t: nat)
    requires t >= 1
    ensures t as real <= n <==> t <= Years(n)
  {
  }

  /** A year's interest `K * i` on the capital `K`. */
  function Interest(k: real, i: real): real {
    k * i
  }

  /** The capital after `t` years at rate `i`, year by year as the loop
      computes it. */
  function Balance(c0: real, i: real, t: nat): real {
    if t == 0 then c0 else Balance(c0, i, t - 1) + Interest(Balance(c0, i, t - 1), i)
  }

  /** One year adds the year's interest to the capital. */
  lemma BalanceStep(c0: real, i: real, t: nat)
    ensures Balance(c0, i, t + 1) == Balance(c0, i, t) + Interest(Balance(c0, i, t), i)
  {
  }

  /** Row of year `t`, for `t >= 1`. */
  function YearRow(c0: real, i: real, t: nat): Row
    requires t >= 1
  {
    Row(t, Balance(c0, i, t - 1), Interest(Balance(c0, i, t - 1), i), Balance(c0, i, t))
  }

  /** A year's row: its number, the interest on its starting capital, and
      the end capital as start plus interest. */
  lemma YearRowFacts(c0: real, i: real, t: nat)
    requires t >= 1
    ensures var r := YearRow(c0, i, t); r.anio == t && r.interes == r.kapT * i && r.kapT1 == r.kapT + r.interes
    ensures var r := YearRow(c0, i, t); r.kapT1 == r.kapT * (1.0 + i)
  {
    BalanceStep(c0, i, t - 1);
  }

  /** The table of the first `m` years. */
  function Schedule(c0: real, i: real, m: nat): seq<Row> {
    seq(m, j requires 0 <= j < m => YearRow(c0, i, j + 1))
  }

  /** Compound interest in closed form: after `t` years the capital is
      `c0 * (1 + i)^t`. */
  lemma {:induction false} BalanceClosedForm(c0: real, i: real, t: nat)
    ensures Balance(c0, i, t) == c0 * Pow(1.0 + i, t)
  {
    if t > 0 {
      BalanceClosedForm(c0, i, t - 1);
      Regroup(c0, Pow(1.0 + i, t - 1), i);
    }
  }

  /** `(c0 * q) + (c0 * q) * i == c0 * ((1 + i) * q)`: one year's growth
      multiplies the capital by `1 + i`. */
  lemma Regroup(c0: real, q: real, i: real)
    ensures (c0 * q) + (c0 * q) * i == c0 * ((1.0 + i) * q)
  {
    calc {
      (c0 * q) + (c0 * q) * i;
      (c0 * q) * (1.0 + i);
      c0 * ((1.0 + i) * q);
    }
  }

  /** With a non-negative rate and a positive start the capital never falls
      and never drops below the start. */
  lemma {:induction false} BalanceGrows(c0: real, i: real, t: nat)
    requires c0 > 0.0 && i >= 0.0
    ensures c0 <= Balance(c0, i, t) <= Balance(c0, i, t + 1)
  {
    if t > 0 {
      BalanceGrows(c0, i, t - 1);
    }
    var b := Balance(c0, i, t);
    assert b * i >= 0.0 by {
      assert b >= 0.0;
    }
  }

  /** Row `j` of the table: year `j + 1`, starting from the initial capital
      when it is the first row and from the previous row's end capital
      otherwise, with interest `kap_t * i` and end capital `kap_t + interes`. */
  lemma ScheduleRow(c0: real, i: real, m: nat, j: nat)
    requires j < m
    ensures |Schedule(c0, i, m)| == m
    ensures var s := Schedule(c0, i, m);
      s[j].anio == j + 1 && s[j].interes == s[j].kapT * i && s[j].kapT1 == s[j].kapT + s[j].interes &&
      s[j].kapT1 == s[j].kapT * (1.0 + i) &&
      s[j].kapT == (if j == 0 then c0 else s[j - 1].kapT1)
  {
    YearRowFacts(c0, i, j + 1);
  }

  /** The last row ends with the capital after all the years, which is
      `c0 * (1 + i)^m`. */
  lemma ScheduleEnd(c0: real, i: real, m: nat)
    requires m > 0
    ensures |Schedule(c0, i, m)| == m
    ensures Schedule(c0, i, m)[m - 1].kapT1 == Balance(c0, i, m) == c0 * Pow(1.0 + i, m)
  {
    BalanceClosedForm(c0, i, m);
  }

  /** With a non-negative rate and a positive start, the capital at the end
      of each row is at least the capital at its start, and at least the
      initial capital. */
  lemma ScheduleGrows(c0: real, i: real, m: nat, j: nat)
    requires c0 > 0.0 && i >= 0.0 && j < m
    ensures |Schedule(c0, i, m)| == m
    ensures c0 <= Schedule(c0, i, m)[j].kapT <= Schedule(c0, i, m)[j].kapT1
  {
    BalanceGrows(c0, i, j);
  }

  /** The loop `for (let t = 1; t <= n; t++)` that pushes one row per year
      and carries `K` forward; the final `K` is `kFinal`. */
  method Compound(c0: real, i: real, n: real) returns (rows: seq<Row>, kFinal: real)
    ensures rows == Schedule(c0, i, Years(n))
    ensures kFinal == Balance(c0, i, Years(n))
  {
    var k := c0;
    rows := [];
    var t: nat := 1;
    while t as real <= n
      invariant 1 <= t <= Years(n) + 1
      invariant rows == Schedule(c0, i, t - 1)
      invariant k == Balance(c0, i, t - 1)
      decreases Years(n) + 1 - t
    {
      YearsBound(n, t);
      var interes := Interest(k, i);
      var kNext := k + interes;
      assert Row(t, k, interes, kNext) == YearRow(c0, i, t);
      rows := rows + [Row(t, k, interes, kNext)];
      assert rows == Schedule(c0, i, t);
      k := kNext;
      t := t + 1;
    }
    YearsBound(n, t);
    kFinal := k;
  }
}
