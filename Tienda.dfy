/** The shop (`src/pages/ejercicios/Tienda.jsx`): for every hour one draw of
    the arrivals generator gives the customers of the hour (0..4), and each
    customer takes one draw of the items generator to decide how many items
    (0..3) it buys. Each hour's sales give revenue, product cost and profit;
    a trial adds them up over the hours and subtracts the fixed daily cost.
    Several trials are run from seeds derived from the epoch and averaged. */
module Tienda {
  import opened JsInt
  import opened Mulberry32
  import opened Seeding
  import opened Options
  import opened Ledger
  import Stats

  const SEED_ARR: nat := 20251
  const SEED_ART: nat := 7919

  /** The parsed form: hours simulated (NMH), unit purchase cost (CUA), unit
      sale price (PVU) and fixed daily cost (CF). */
  datatype Params = Params(nmh: nat, cua: real, pvu: real, cf: real)

  /** The page's `ready` check, with the trial count limited to 1..30. */
  predicate Ready(p: Params, simCount: nat) {
    p.nmh > 0 && p.cua >= 0.0 && p.pvu >= 0.0 && p.cf >= 0.0 && 0 < simCount <= 30
  }

  /** `articulosPorCliente`: 0, 1, 2 or 3 items for draws up to 0.2, 0.5,
      0.9 and above. */
  function ArticulosPorCliente(u: real): (items: nat)
    ensures items <= 3
  {
    if u <= 0.2 then 0 else if u <= 0.5 then 1 else if u <= 0.9 then 2 else 3
  }

  /** A larger draw never buys fewer items, and a customer buys nothing
      exactly when the draw is at most 0.2. */
  lemma ArticulosMonotone(u: real, v: real)
    requires u <= v
    ensures ArticulosPorCliente(u) <= ArticulosPorCliente(v)
    ensures ArticulosPorCliente(u) == 0 <==> u <= 0.2
  {
  }

  /** `Math.floor(u * 5)` for a draw `u` in [0, 1), written as the five
      bands of width 0.2 it picks out. */
  function ClientesPorU(u: real): (c: nat)
    ensures c <= 4
  {
    if u < 0.2 then 0 else if u < 0.4 then 1 else if u < 0.6 then 2 else if u < 0.8 then 3 else 4
  }

  /** On every draw the bands are the floor the page computes. */
  lemma ClientesIsFloor(u: real)
    requires 0.0 <= u < 1.0
    ensures ClientesPorU(u) == (u * 5.0).Floor
  {
    var x := u * 5.0;
    if u < 0.2 { assert 0.0 <= x < 1.0; }
    else if u < 0.4 { assert 1.0 <= x < 2.0; }
    else if u < 0.6 { assert 2.0 <= x < 3.0; }
    else if u < 0.8 { assert 3.0 <= x < 4.0; }
    else { assert 4.0 <= x < 5.0; }
  }

  /** Items bought by `k` customers served by an items generator in state `t`:
      one draw per customer, in order; at most three items each. */
  function Sold(draw: uint32 -> real, t: uint32, k: nat): (items: nat)
    ensures items <= 3 * k
  {
    if k == 0 then 0 else Sold(draw, t, k - 1) + ArticulosPorCliente(draw(StateAfter(t, k - 1)))
  }

  /** Serving one more customer adds that customer's items. */
  lemma SoldStep(draw: uint32 -> real, t: uint32, k: nat)
    ensures Sold(draw, t, k + 1) == Sold(draw, t, k) + ArticulosPorCliente(draw(StateAfter(t, k)))
  {
  }

  /** The four running totals of a trial. */
  datatype Totals = Totals(totalArtVendidos: nat, totalIngresos: real, totalCostoProductos: real,
                           totalGanancia: real)

  /** The totals with the states of the trial's two generators. */
  datatype Tally = Tally(tArr: uint32, tArt: uint32, totals: Totals)

  /** One row of the hour table. */
  datatype Row = Row(hora: nat, clientes: nat, vendidos: nat, ingresos: real, costoProd: real, ganancia: real)

  datatype Resumen = Resumen(nmh: nat, cua: real, pvu: real, cf: real, seedArr: int, seedArt: int,
                             totalVendidos: nat, gananciaTotal: real, gananciaNeta: real)

  datatype Sim = Sim(simIndex: nat, resumen: Resumen, rows: seq<Row>)

  datatype Agregados = Agregados(promVendidos: real, promGT: real, promGN: real, s: nat)

  /** The row of hour `h` with its customers and items sold: revenue at
      the sale price, product cost at the purchase cost, and their difference. */
  function HourFigures(p: Params, h: nat, clientes: nat, vendidos: nat): Row
  {
    var ingresos := Stats.AtPrice(vendidos, p.pvu);
    var costoProd := Stats.AtPrice(vendidos, p.cua);
    Row(h, clientes, vendidos, ingresos, costoProd, ingresos - costoProd)
  }

  /** Hour `h` played from generator states `tArr` and `tArt`. */
  function HourRow(p: Params, draw: uint32 -> real, tArr: uint32, tArt: uint32, h: nat): Row
  {
    var clientes := ClientesPorU(draw(tArr));
    HourFigures(p, h, clientes, Sold(draw, tArt, clientes))
  }

  /** The totals after an hour: one arrivals draw, one items draw per
      customer, and the hour's figures added to the running totals. */
  function Step(p: Params, draw: uint32 -> real, st: Tally, h: nat): Tally
  {
    Accumulate(st, HourRow(p, draw, st.tArr, st.tArt, h))
  }

  /** The state with row `r` added to the totals, after the generator calls
      of its hour. */
  function Accumulate(st: Tally, r: Row): Tally
  {
    Tally(Advance(st.tArr), StateAfter(st.tArt, r.clientes), Add(st.totals, r))
  }

  /** The totals with the figures of row `r` added. */
  function Add(t: Totals, r: Row): Totals
  {
    Totals(t.totalArtVendidos + r.vendidos, t.totalIngresos + r.ingresos,
           t.totalCostoProductos + r.costoProd, t.totalGanancia + r.ganancia)
  }

  /** Hour `h` from state `st`: the new totals and the row of the hour. */
  function Hour(p: Params, draw: uint32 -> real, st: Tally, h: nat): Outcome<Tally, Row>
  {
    Outcome(Step(p, draw, st, h), HourRow(p, draw, st.tArr, st.tArt, h))
  }

  /** The loop body as a function of the state and the hour. */
  function HourOf(p: Params, draw: uint32 -> real): (Tally, nat) -> Outcome<Tally, Row> {
    (st: Tally, h: nat) => Hour(p, draw, st, h)
  }

  /** The state after `n` hours from fresh generators in states `tArr`, `tArt`. */
  function After(p: Params, draw: uint32 -> real, tArr: uint32, tArt: uint32, n: nat): Tally
  {
    Run(HourOf(p, draw), Tally(tArr, tArt, Totals(0, 0.0, 0.0, 0.0)), n)
  }

  /** The rows of the first `n` hours. */
  function Rows(p: Params, draw: uint32 -> real, tArr: uint32, tArt: uint32, n: nat): seq<Row>
  {
    Table(HourOf(p, draw), Tally(tArr, tArt, Totals(0, 0.0, 0.0, 0.0)), n)
  }

  /** One more hour extends the totals by a step and the table by a row. */
  lemma AfterStep(p: Params, draw: uint32 -> real, tArr: uint32, tArt: uint32, n: nat)
    ensures After(p, draw, tArr, tArt, n + 1) == Step(p, draw, After(p, draw, tArr, tArt, n), n + 1)
    ensures Rows(p, draw, tArr, tArt, n + 1)
            == Rows(p, draw, tArr, tArt, n)
               + [HourRow(p, draw, After(p, draw, tArr, tArt, n).tArr, After(p, draw, tArr, tArt, n).tArt, n + 1)]
  {
  }

  /** The summary of trial `s` once its hours are played. */
  function Summarize(p: Params, s: nat, baseArr: int, baseArt: int, fin: Tally, rows: seq<Row>): Sim
  {
    Sim(s, Resumen(p.nmh, p.cua, p.pvu, p.cf, baseArr + s, baseArt + s,
                   fin.totals.totalArtVendidos, fin.totals.totalGanancia, fin.totals.totalGanancia - p.cf), rows)
  }

  /** Trial `s` with `rngArr = mulberry32(baseArr + s)` and
      `rngArt = mulberry32(baseArt + s)`. */
  function SimOf(p: Params, s: nat, baseArr: int, baseArt: int): Sim
  {
    var tArr := TrialSeed(baseArr, s);
    var tArt := TrialSeed(baseArt, s);
    Summarize(p, s, baseArr, baseArt, After(p, Draw, tArr, tArt, p.nmh), Rows(p, Draw, tArr, tArt, p.nmh))
  }

  function BaseArr(epoch: uint32): int { AddedBase(SEED_ARR, epoch) }
  function BaseArt(epoch: uint32): int { XoredBase(SEED_ART, epoch) }

  function TrialAt(p: Params, epoch: uint32, s: nat): Sim
  {
    SimOf(p, s, BaseArr(epoch), BaseArt(epoch))
  }

  function Trials(p: Params, simCount: nat, epoch: uint32): seq<Sim>
  {
    seq(simCount, s requires 0 <= s < simCount => TrialAt(p, epoch, s))
  }

  /** One more trial appends trial `s` to the runs. */
  lemma TrialsSnoc(p: Params, s: nat, epoch: uint32)
    ensures Trials(p, s + 1, epoch) == Trials(p, s, epoch) + [TrialAt(p, epoch, s)]
  {
  }

  // ---------------------------------------------------------------------
  // Properties of one hour and of one trial

  /** Profit at a margin of `PVU - CUA` per item. */
  function Margin(p: Params, items: real): real {
    items * (p.pvu - p.cua)
  }

  /** Revenue less product cost on `n` items is the margin on them. */
  lemma MarginOfCount(p: Params, n: nat)
    ensures Stats.AtPrice(n, p.pvu) - Stats.AtPrice(n, p.cua) == Margin(p, n as real)
  {
    Stats.AtPriceIsProduct(n, p.pvu);
    Stats.AtPriceIsProduct(n, p.cua);
    var x := n as real;
    assert x * p.pvu - x * p.cua == x * (p.pvu - p.cua);
  }

  /** What a row of the table promises about its hour: its number, at most
      four customers buying at most three items each, revenue and product
      cost at the sale price and the purchase cost, and profit as their
      difference. */
  ghost predicate RowOk(p: Params, r: Row, h: nat) {
    r.hora == h && r.clientes <= 4 && r.vendidos <= 3 * r.clientes &&
    r.ingresos == Stats.AtPrice(r.vendidos, p.pvu) && r.costoProd == Stats.AtPrice(r.vendidos, p.cua) &&
    r.ganancia == r.ingresos - r.costoProd
  }

  /** Every hour's row keeps those promises. */
  lemma HourFacts(p: Params, draw: uint32 -> real, tArr: uint32, tArt: uint32, h: nat)
    ensures RowOk(p, HourRow(p, draw, tArr, tArt, h), h)
  {
  }

  /** Every hour sells at most 12 items, and the arrivals generator is called
      once per hour. */
  lemma {:induction false} SoldBound(p: Params, draw: uint32 -> real, tArr: uint32, tArt: uint32, n: nat)
    ensures After(p, draw, tArr, tArt, n).totals.totalArtVendidos <= 12 * n
    ensures After(p, draw, tArr, tArt, n).tArr == StateAfter(tArr, n)
  {
    if n > 0 {
      SoldBound(p, draw, tArr, tArt, n - 1);
      var prev := After(p, draw, tArr, tArt, n - 1);
      HourFacts(p, draw, prev.tArr, prev.tArt, n);
    }
  }

  /** The running totals are the items sold so far at the sale price and at
      the purchase cost, and the profit is their difference. */
  ghost predicate TotalsOk(p: Params, t: Totals) {
    t.totalIngresos == Stats.AtPrice(t.totalArtVendidos, p.pvu) &&
    t.totalCostoProductos == Stats.AtPrice(t.totalArtVendidos, p.cua) &&
    t.totalGanancia == t.totalIngresos - t.totalCostoProductos
  }

  /** An hour keeps the totals in that form. */
  lemma StepKeepsTotals(p: Params, draw: uint32 -> real, st: Tally, h: nat)
    requires TotalsOk(p, st.totals)
    ensures TotalsOk(p, Step(p, draw, st, h).totals)
  {
    var r := HourRow(p, draw, st.tArr, st.tArt, h);
    HourFacts(p, draw, st.tArr, st.tArt, h);
    Stats.AtPriceAdd(st.totals.totalArtVendidos, r.vendidos, p.pvu);
    Stats.AtPriceAdd(st.totals.totalArtVendidos, r.vendidos, p.cua);
  }

  /** After any number of hours the totals are in that form. */
  lemma {:induction false} TotalsClosedForm(p: Params, draw: uint32 -> real, tArr: uint32, tArt: uint32, n: nat)
    ensures TotalsOk(p, After(p, draw, tArr, tArt, n).totals)
  {
    if n > 0 {
      TotalsClosedForm(p, draw, tArr, tArt, n - 1);
      StepKeepsTotals(p, draw, After(p, draw, tArr, tArt, n - 1), n);
    }
  }

  /** Customers of the first `n` hours. */
  function Customers(rows: seq<Row>): nat {
    if rows == [] then 0 else Customers(rows[..|rows| - 1]) + rows[|rows| - 1].clientes
  }

  lemma CustomersSnoc(rows: seq<Row>, r: Row)
    ensures Customers(rows + [r]) == Customers(rows) + r.clientes
  {
    assert (rows + [r])[..|rows|] == rows;
  }

  /** An hour calls the items generator once for each of its customers. */
  lemma StepCustomers(p: Params, draw: uint32 -> real, st: Tally, h: nat, t0: uint32, rows: seq<Row>)
    requires st.tArt == StateAfter(t0, Customers(rows))
    ensures Step(p, draw, st, h).tArt == StateAfter(t0, Customers(rows + [HourRow(p, draw, st.tArr, st.tArt, h)]))
  {
    var r := HourRow(p, draw, st.tArr, st.tArt, h);
    CustomersSnoc(rows, r);
    StateAfterAdd(t0, Customers(rows), r.clientes);
  }

  /** The items generator is called once per customer over the whole trial. */
  lemma {:induction false} ItemDraws(p: Params, draw: uint32 -> real, tArr: uint32, tArt: uint32, n: nat)
    ensures After(p, draw, tArr, tArt, n).tArt == StateAfter(tArt, Customers(Rows(p, draw, tArr, tArt, n)))
  {
    if n > 0 {
      ItemDraws(p, draw, tArr, tArt, n - 1);
      var before := Rows(p, draw, tArr, tArt, n - 1);
      var prev := After(p, draw, tArr, tArt, n - 1);
      AfterStep(p, draw, tArr, tArt, n - 1);
      StepCustomers(p, draw, prev, n, tArt, before);
      var r := HourRow(p, draw, prev.tArr, prev.tArt, n);
      assert After(p, draw, tArr, tArt, n).tArt == Step(p, draw, prev, n).tArt;
      assert Rows(p, draw, tArr, tArt, n) == before + [r];
    }
  }

  /** There is one row per hour, numbered from 1, and each keeps the hour's facts. */
  lemma RowsShape(p: Params, draw: uint32 -> real, tArr: uint32, tArt: uint32, n: nat)
    ensures |Rows(p, draw, tArr, tArt, n)| == n
    ensures forall i :: 0 <= i < n ==> RowOk(p, Rows(p, draw, tArr, tArt, n)[i], i + 1)
  {
    TableLength(HourOf(p, draw), Tally(tArr, tArt, Totals(0, 0.0, 0.0, 0.0)), n);
    forall i | 0 <= i < n
      ensures RowOk(p, Rows(p, draw, tArr, tArt, n)[i], i + 1)
    {
      TableAt(HourOf(p, draw), Tally(tArr, tArt, Totals(0, 0.0, 0.0, 0.0)), n, i);
      HourFacts(p, draw, After(p, draw, tArr, tArt, i).tArr, After(p, draw, tArr, tArt, i).tArt, i + 1);
    }
  }

  function GananciaColumn(rows: seq<Row>): seq<real> {
    seq(|rows|, i requires 0 <= i < |rows| => rows[i].ganancia)
  }

  /** `gananciaTotal` is the sum of the hourly profits shown in the rows. */
  lemma {:induction false} TotalIsSumOfRows(p: Params, draw: uint32 -> real, tArr: uint32, tArt: uint32, n: nat)
    ensures After(p, draw, tArr, tArt, n).totals.totalGanancia == Stats.Sum(GananciaColumn(Rows(p, draw, tArr, tArt, n)))
  {
    if n > 0 {
      TotalIsSumOfRows(p, draw, tArr, tArt, n - 1);
      TableLength(HourOf(p, draw), Tally(tArr, tArt, Totals(0, 0.0, 0.0, 0.0)), n);
      TableLength(HourOf(p, draw), Tally(tArr, tArt, Totals(0, 0.0, 0.0, 0.0)), n - 1);
      var col := GananciaColumn(Rows(p, draw, tArr, tArt, n));
      assert col[..n - 1] == GananciaColumn(Rows(p, draw, tArr, tArt, n - 1));
    }
  }

  /** What the summary of one trial promises. */
  ghost predicate SummaryOk(p: Params, r: Resumen) {
    r.totalVendidos <= 12 * p.nmh &&
    r.gananciaTotal == Margin(p, r.totalVendidos as real) &&
    r.gananciaNeta == r.gananciaTotal - p.cf
  }

  /** The summary: items sold within the 12-per-hour bound, total profit at
      the margin, net profit after the fixed cost, and one row per hour. */
  lemma SummaryFacts(p: Params, s: nat, baseArr: int, baseArt: int)
    ensures SummaryOk(p, SimOf(p, s, baseArr, baseArt).resumen)
    ensures |SimOf(p, s, baseArr, baseArt).rows| == p.nmh
  {
    var tArr := TrialSeed(baseArr, s);
    var tArt := TrialSeed(baseArt, s);
    TotalsClosedForm(p, Draw, tArr, tArt, p.nmh);
    SoldBound(p, Draw, tArr, tArt, p.nmh);
    TableLength(HourOf(p, Draw), Tally(tArr, tArt, Totals(0, 0.0, 0.0, 0.0)), p.nmh);
    MarginOfCount(p, After(p, Draw, tArr, tArt, p.nmh).totals.totalArtVendidos);
  }

  // ---------------------------------------------------------------------
  // The page's computations

  /** The customer loop of one hour: one items draw per customer. */
  method ServeCustomers(rngArt: Rng, clientes: nat) returns (vendidos: nat)
    modifies rngArt
    ensures vendidos == Sold(Draw, old(rngArt.t), clientes)
    ensures rngArt.t == StateAfter(old(rngArt.t), clientes)
  {
    ghost var t0 := rngArt.t;
    vendidos := 0;
    var c := 0;
    while c < clientes
      invariant 0 <= c <= clientes
      invariant vendidos == Sold(Draw, t0, c)
      invariant rngArt.t == StateAfter(t0, c)
    {
      var u := rngArt.Next();
      SoldStep(Draw, t0, c);
      vendidos := vendidos + ArticulosPorCliente(u);
      c := c + 1;
    }
  }

  /** Hour `h` of the loop: the customers, their items, and the hour's
      figures added to the running totals. */
  method PlayHour(p: Params, rngArr: Rng, rngArt: Rng, ghost tArr: uint32, ghost tArt: uint32, h: nat,
                  totals: Totals) returns (totals': Totals, row: Row)
    requires rngArr != rngArt && h >= 1
    requires Tally(rngArr.t, rngArt.t, totals) == After(p, Draw, tArr, tArt, h - 1)
    modifies rngArr, rngArt
    ensures Tally(rngArr.t, rngArt.t, totals') == After(p, Draw, tArr, tArt, h)
    ensures Rows(p, Draw, tArr, tArt, h - 1) + [row] == Rows(p, Draw, tArr, tArt, h)
  {
    AfterStep(p, Draw, tArr, tArt, h - 1);
    var u := rngArr.Next();
    var clientes := ClientesPorU(u);
    var vendidosHora := ServeCustomers(rngArt, clientes);
    row := HourFigures(p, h, clientes, vendidosHora);
    totals' := Totals(totals.totalArtVendidos + row.vendidos, totals.totalIngresos + row.ingresos,
                      totals.totalCostoProductos + row.costoProd, totals.totalGanancia + row.ganancia);
  }

  /** The hour loop of one trial, with its two generators. */
  method PlayTrial(p: Params, s: nat, baseArr: int, baseArt: int) returns (sim: Sim)
    ensures sim == SimOf(p, s, baseArr, baseArt)
  {
    var rngArr := new Rng(baseArr + s);
    var rngArt := new Rng(baseArt + s);
    ghost var tArr, tArt := TrialSeed(baseArr, s), TrialSeed(baseArt, s);
    var totals := Totals(0, 0.0, 0.0, 0.0);
    var rows := [];
    var h := 1;
    while h <= p.nmh
      invariant 1 <= h <= p.nmh + 1
      invariant Tally(rngArr.t, rngArt.t, totals) == After(p, Draw, tArr, tArt, h - 1)
      invariant rows == Rows(p, Draw, tArr, tArt, h - 1)
    {
      var row;
      totals, row := PlayHour(p, rngArr, rngArt, tArr, tArt, h, totals);
      rows := rows + [row];
      h := h + 1;
    }
    sim := Summarize(p, s, baseArr, baseArt, Tally(rngArr.t, rngArt.t, totals), rows);
  }

  /** All trials: none when the form is not ready, otherwise trial `s` for
      every `s` below the trial count. */
  method Simulate(p: Params, simCount: nat, epoch: uint32) returns (sims: seq<Sim>)
    ensures !Ready(p, simCount) ==> sims == []
    ensures Ready(p, simCount) ==> sims == Trials(p, simCount, epoch)
  {
    if !Ready(p, simCount) {
      return [];
    }
    var baseArr := BaseArr(epoch);
    var baseArt := BaseArt(epoch);
    sims := [];
    var s := 0;
    while s < simCount
      invariant 0 <= s <= simCount
      invariant sims == Trials(p, s, epoch)
    {
      var sim := PlayTrial(p, s, baseArr, baseArt);
      TrialsSnoc(p, s, epoch);
      sims := sims + [sim];
      s := s + 1;
    }
  }

  // ---------------------------------------------------------------------
  // Averages over the trials

  function VendidosColumn(sims: seq<Sim>): seq<real> {
    seq(|sims|, i requires 0 <= i < |sims| => sims[i].resumen.totalVendidos as real)
  }

  function GTColumn(sims: seq<Sim>): seq<real> {
    seq(|sims|, i requires 0 <= i < |sims| => sims[i].resumen.gananciaTotal)
  }

  function GNColumn(sims: seq<Sim>): seq<real> {
    seq(|sims|, i requires 0 <= i < |sims| => sims[i].resumen.gananciaNeta)
  }

  /** `agregados`: `null` without trials, otherwise the means of the items
      sold, the total profit and the net profit. */
  method ComputeAgregados(sims: seq<Sim>) returns (agg: Option<Agregados>)
    ensures sims == [] <==> agg == None
    ensures sims != [] ==> agg == Some(Agregados(Stats.Mean(VendidosColumn(sims)), Stats.Mean(GTColumn(sims)),
                                                 Stats.Mean(GNColumn(sims)), |sims|))
  {
    if |sims| == 0 {
      return None;
    }
    var sumVend, sumGT, sumGN := 0.0, 0.0, 0.0;
    var i := 0;
    while i < |sims|
      invariant 0 <= i <= |sims|
      invariant sumVend == Stats.Sum(VendidosColumn(sims)[..i])
      invariant sumGT == Stats.Sum(GTColumn(sims)[..i])
      invariant sumGN == Stats.Sum(GNColumn(sims)[..i])
    {
      Stats.SumSnoc(VendidosColumn(sims), i);
      Stats.SumSnoc(GTColumn(sims), i);
      Stats.SumSnoc(GNColumn(sims), i);
      sumVend := sumVend + sims[i].resumen.totalVendidos as real;
      sumGT := sumGT + sims[i].resumen.gananciaTotal;
      sumGN := sumGN + sims[i].resumen.gananciaNeta;
      i := i + 1;
    }
    assert VendidosColumn(sims)[..i] == VendidosColumn(sims);
    assert GTColumn(sims)[..i] == GTColumn(sims);
    assert GNColumn(sims)[..i] == GNColumn(sims);
    var S := |sims| as real;
    agg := Some(Agregados(sumVend / S, sumGT / S, sumGN / S, |sims|));
  }

  /** Averages over any trials whose summaries keep their promises. */
  lemma MeansOf(p: Params, sims: seq<Sim>)
    requires sims != []
    requires forall i :: 0 <= i < |sims| ==> SummaryOk(p, sims[i].resumen)
    ensures 0.0 <= Stats.Mean(VendidosColumn(sims)) <= 12.0 * (p.nmh as real)
    ensures Stats.Mean(GTColumn(sims)) == Margin(p, Stats.Mean(VendidosColumn(sims)))
    ensures Stats.Mean(GNColumn(sims)) == Stats.Mean(GTColumn(sims)) - p.cf
  {
    var bound := 12.0 * (p.nmh as real);
    forall i | 0 <= i < |sims|
      ensures 0.0 <= VendidosColumn(sims)[i] <= bound
    {
      var v := sims[i].resumen.totalVendidos;
      assert v <= 12 * p.nmh;
      assert (v as real) <= ((12 * p.nmh) as real);
    }
    Stats.MeanBounds(VendidosColumn(sims), 0.0, bound);
    Stats.MeanAffine(VendidosColumn(sims), 0.0, p.pvu - p.cua, GTColumn(sims));
    Stats.MeanAffine(GTColumn(sims), -p.cf, 1.0, GNColumn(sims));
  }

  /** Over the trials of one run: the mean items sold stay within the hourly
      bound, the mean total profit is the margin on the mean items sold, and
      the mean net profit is the mean total profit less the fixed cost. */
  lemma AgregadosFacts(p: Params, simCount: nat, epoch: uint32)
    requires Ready(p, simCount)
    ensures var sims := Trials(p, simCount, epoch);
      0.0 <= Stats.Mean(VendidosColumn(sims)) <= 12.0 * (p.nmh as real) &&
      Stats.Mean(GTColumn(sims)) == Margin(p, Stats.Mean(VendidosColumn(sims))) &&
      Stats.Mean(GNColumn(sims)) == Stats.Mean(GTColumn(sims)) - p.cf
  {
    var sims := Trials(p, simCount, epoch);
    forall s | 0 <= s < simCount
      ensures SummaryOk(p, sims[s].resumen)
    {
      SummaryFacts(p, s, BaseArr(epoch), BaseArt(epoch));
    }
    MeansOf(p, sims);
  }
}
