/** The sugar warehouse (`src/pages/ejercicios/Azucar.jsx`): a periodic-review
    inventory. The store starts full (and pays for that stock), sells what the
    day's demand asks for while stock lasts, receives a pending order when its
    lead time runs out (clamped to the capacity), and every K days orders up
    to capacity if no order is pending, with a lead time of 1 or 2 days drawn
    from a second generator. Costs are acquisition, ordering and holding
    (the mean of the day's opening and closing stock). Several trials are
    averaged, with the share of trials that lost no demand.

    The day's demand is `expRandMean(u, MEAN)`, an exponential variate of
    the demand generator's draw `u`; it enters the model as the function
    `demandOf` of that draw. */
module Azucar {
  import opened JsInt
  import opened Mulberry32
  import opened Seeding
  import opened Options
  import Stats
  import opened Ledger

  const SEED_DEM: nat := 202407
  const SEED_LEAD: nat := 99013

  /** The demand left unmet up to which a trial counts as having enough capacity. */
  const LOST_TOLERANCE: real := 0.000001

  /** The parsed form: mean demand, warehouse capacity, ordering cost,
      holding cost per unit and day, unit acquisition cost, unit sale price,
      review interval K and days simulated D. */
  datatype Params = Params(mean: real, cap: real, cord: real, cin: real, cadq: real, pv: real, k: nat, d: nat)

  /** The page's `ready` check, with the trial count limited to 1..30. */
  predicate Ready(p: Params, simCount: nat) {
    p.mean > 0.0 && p.cap > 0.0 && p.cord >= 0.0 && p.cin >= 0.0 && p.cadq >= 0.0 && p.pv >= 0.0 &&
    p.k >= 1 && p.d >= 1 && 0 < simCount <= 30
  }

  /** Every draw lies in [0, 1), as the generator's do. */
  ghost predicate Unit01(draw: uint32 -> real) {
    forall t :: 0.0 <= draw(t) < 1.0
  }

  /** The demand of any draw in [0, 1) is not negative, as an exponential
      variate is not. */
  ghost predicate DemandNonNeg(demandOf: real -> real) {
    forall u :: 0.0 <= u < 1.0 ==> demandOf(u) >= 0.0
  }

  // ---------------------------------------------------------------------
  // The stages of a day

  /** The order in transit: whether one is pending, its quantity and the days
      left until it arrives. */
  datatype Order = Order(pendiente: bool, cantidad: real, rest: int)

  datatype Stock = Stock(inventario: real, order: Order)

  /** The accumulators of a trial. */
  datatype Acc = Acc(demandaTotal: real, demandaInsatis: real, ingresoBrutoTotal: real, costoTotal: real,
                     numOrdenes: nat)

  /** The stock and accumulators with the states of the demand and lead-time
      generators. */
  datatype Tally = Tally(tDem: uint32, tLead: uint32, stock: Stock, acc: Acc)

  datatype Row = Row(dia: nat, invIni: real, demanda: real, ventas: real, perdida: real, pedidoHoy: real,
                     leadAsignado: Option<nat>, arriboHoy: real, invFin: real, costoInvDia: real,
                     costoOrdenarHoy: real, costoAdqHoy: real, ingresoDia: real, ingresoAcum: real,
                     costoAcum: real, gananciaAcum: real)

  /** The outcome of the sales: sold, lost, and the stock left. */
  datatype Sale = Sale(ventas: real, perdida: real, inv: real)

  /** The demand is served from stock; what stock cannot cover is lost. */
  function Sell(inv: real, demanda: real): (s: Sale)
    ensures s.ventas + s.perdida == demanda
    ensures s.ventas <= inv && s.inv == inv - s.ventas
    ensures s.perdida > 0.0 <==> demanda > inv
    ensures s.perdida > 0.0 ==> s.inv == 0.0
    ensures 0.0 <= inv && 0.0 <= demanda ==> 0.0 <= s.ventas && 0.0 <= s.perdida && 0.0 <= s.inv
  {
    if demanda <= inv then Sale(demanda, 0.0, inv - demanda) else Sale(inv, demanda - inv, 0.0)
  }

  /** The outcome of the arrival step: what arrived, the stock, the order and
      the acquisition cost charged. */
  datatype Arrival = Arrival(arribo: real, inv: real, order: Order, costoAdq: real)

  function Min(a: real, b: real): real {
    if a > b then b else a
  }

  /** A pending order counts down one day; when the count reaches 0 it
      arrives, is paid for in full, and the stock is clamped to the capacity. */
  function Arrive(p: Params, inv: real, o: Order): Arrival {
    if !o.pendiente then Arrival(0.0, inv, o, 0.0)
    else if o.rest - 1 <= 0 then
      Arrival(o.cantidad, Min(inv + o.cantidad, p.cap), Order(false, o.cantidad, o.rest - 1), Amount(o.cantidad, p.cadq))
    else Arrival(0.0, inv, o.(rest := o.rest - 1), 0.0)
  }

  /** `d_ % K === 0`; a zero K makes the remainder NaN, which is never 0. */
  predicate ReviewDue(d: nat, k: nat) {
    k > 0 && d % k == 0
  }

  /** `1 + Math.floor(u * 2)` for a draw `u` in [0, 1). */
  function Lead(u: real): (lt: nat)
    ensures 1 <= lt <= 2
  {
    if u < 0.5 then 1 else 2
  }

  lemma LeadIsFloor(u: real)
    requires 0.0 <= u < 1.0
    ensures Lead(u) == 1 + (u * 2.0).Floor
  {
    if u < 0.5 {
      assert 0.0 <= u * 2.0 < 1.0;
    } else {
      assert 1.0 <= u * 2.0 < 2.0;
    }
  }

  /** The outcome of the review: the quantity ordered, the lead time drawn,
      the order in transit, the lead generator's state and the ordering cost. */
  datatype Review = Review(pedido: real, lead: Option<nat>, order: Order, tLead: uint32, costoOrdenar: real)

  /** On a review day with no order pending, an order fills the warehouse up
      to capacity if it is not full; only then is a lead time drawn. */
  function ReviewStock(p: Params, draw: uint32 -> real, d: nat, inv: real, o: Order, tLead: uint32): Review {
    if ReviewDue(d, p.k) && !o.pendiente && p.cap - inv > 0.0 then
      var lt := Lead(draw(tLead));
      Review(p.cap - inv, Some(lt), Order(true, p.cap - inv, lt), Advance(tLead), p.cord)
    else Review(0.0, None, o, tLead, 0.0)
  }

  /** Day `d` from state `st`: one demand draw, the sales, the arrival, the
      review, the holding cost of the mean stock and the income from sales. */
  function Day(p: Params, demandOf: real -> real, draw: uint32 -> real, st: Tally, d: nat): Outcome<Tally, Row> {
    var invIni := st.stock.inventario;
    var demanda := demandOf(draw(st.tDem));
    var sale := Sell(invIni, demanda);
    var arr := Arrive(p, sale.inv, st.stock.order);
    var rev := ReviewStock(p, draw, d, arr.inv, arr.order, st.tLead);
    var costoInvDia := HoldingCost(invIni, arr.inv, p.cin);
    var ingresoDia := Amount(sale.ventas, p.pv);
    var a := st.acc;
    var acc := Acc(a.demandaTotal + demanda, a.demandaInsatis + sale.perdida, a.ingresoBrutoTotal + ingresoDia,
                   a.costoTotal + arr.costoAdq + rev.costoOrdenar + costoInvDia,
                   a.numOrdenes + (if rev.lead.Some? then 1 else 0));
    Outcome(Tally(Advance(st.tDem), rev.tLead, Stock(arr.inv, rev.order), acc),
              Row(d, invIni, demanda, sale.ventas, sale.perdida, rev.pedido, rev.lead, arr.arribo, arr.inv,
                  costoInvDia, rev.costoOrdenar, arr.costoAdq, ingresoDia, acc.ingresoBrutoTotal, acc.costoTotal,
                  acc.ingresoBrutoTotal - acc.costoTotal))
  }

  /** A quantity at a unit price: the day's income `ventas * PV` and the
      acquisition cost `arribo * CADQ`. */
  function Amount(q: real, price: real): real {
    q * price
  }

  /** The holding cost `((invIni + inv) / 2) * CIN` of the mean stock. */
  function HoldingCost(invIni: real, invFin: real, cin: real): real {
    ((invIni + invFin) / 2.0) * cin
  }

  /** A full warehouse, no order, and the initial stock already paid for. */
  function Start(p: Params, tDem: uint32, tLead: uint32): Tally {
    Tally(tDem, tLead, Stock(p.cap, Order(false, 0.0, 0)), Acc(0.0, 0.0, 0.0, Amount(p.cap, p.cadq), 0))
  }

  /** The loop body as a function of the state and the day. */
  function DayOf(p: Params, demandOf: real -> real, draw: uint32 -> real): (Tally, nat) -> Outcome<Tally, Row> {
    (st: Tally, d: nat) => Day(p, demandOf, draw, st, d)
  }

  /** The state after `n` days. */
  function After(p: Params, demandOf: real -> real, draw: uint32 -> real, tDem: uint32, tLead: uint32, n: nat): Tally
  {
    Run(DayOf(p, demandOf, draw), Start(p, tDem, tLead), n)
  }

  /** The table of the first `n` days. */
  function Rows(p: Params, demandOf: real -> real, draw: uint32 -> real, tDem: uint32, tLead: uint32, n: nat): seq<Row>
  {
    Table(DayOf(p, demandOf, draw), Start(p, tDem, tLead), n)
  }

  // ---------------------------------------------------------------------
  // Summaries and trials

  datatype Resumen = Resumen(mean: real, cap: real, cord: real, cin: real, cadq: real, pv: real, k: nat, d: nat,
                             seedDem: int, seedLead: int,
                             demandaTotal: real, demandaInsatis: real, ingresoBrutoTotal: real, costoTotal: real,
                             gananciaNeta: real, numOrdenes: nat, capacidadSuficiente: bool)

  datatype Sim = Sim(simIndex: nat, resumen: Resumen, rows: seq<Row>)

  datatype Agregados = Agregados(promIB: real, promDI: real, promCT: real, promGN: real, promNO: real,
                                 tasaCapOK: real, s: nat)

  function Summarize(p: Params, s: nat, baseDem: int, baseLead: int, fin: Tally, rows: seq<Row>): Sim {
    var a := fin.acc;
    Sim(s, Resumen(p.mean, p.cap, p.cord, p.cin, p.cadq, p.pv, p.k, p.d, baseDem + s, baseLead + s,
                   a.demandaTotal, a.demandaInsatis, a.ingresoBrutoTotal, a.costoTotal,
                   a.ingresoBrutoTotal - a.costoTotal, a.numOrdenes, a.demandaInsatis <= LOST_TOLERANCE), rows)
  }

  /** Trial `s` with `rngDem = mulberry32(baseDem + s)` and
      `rngLead = mulberry32(baseLead + s)`. */
  function SimOf(p: Params, demandOf: real -> real, s: nat, baseDem: int, baseLead: int): Sim {
    var tDem := TrialSeed(baseDem, s);
    var tLead := TrialSeed(baseLead, s);
    Summarize(p, s, baseDem, baseLead, After(p, demandOf, Draw, tDem, tLead, p.d), Rows(p, demandOf, Draw, tDem, tLead, p.d))
  }

  function BaseDem(epoch: uint32): int { AddedBase(SEED_DEM, epoch) }
  function BaseLead(epoch: uint32): int { XoredBase(SEED_LEAD, epoch) }

  function TrialAt(p: Params, demandOf: real -> real, epoch: uint32, s: nat): Sim {
    SimOf(p, demandOf, s, BaseDem(epoch), BaseLead(epoch))
  }

  function Trials(p: Params, demandOf: real -> real, simCount: nat, epoch: uint32): seq<Sim> {
    seq(simCount, s requires 0 <= s < simCount => TrialAt(p, demandOf, epoch, s))
  }

  // ---------------------------------------------------------------------
  // Properties of a day

  /** What the stock promises at the end of every day: it lies within the
      capacity, and a pending order carries a positive quantity no larger than
      the capacity and arrives within 1 or 2 days. */
  ghost predicate StockOk(p: Params, s: Stock) {
    0.0 <= s.inventario <= p.cap &&
    (s.order.pendiente ==> 1 <= s.order.rest <= 2 && 0.0 < s.order.cantidad <= p.cap)
  }

  /** A day keeps the stock's promises. */
  lemma DayKeepsStock(p: Params, demandOf: real -> real, draw: uint32 -> real, st: Tally, d: nat)
    requires Unit01(draw) && DemandNonNeg(demandOf)
    requires StockOk(p, st.stock)
    ensures StockOk(p, Day(p, demandOf, draw, st, d).next.stock)
  {
    var u := draw(st.tDem);
    assert demandOf(u) >= 0.0;
  }

  /** What a row promises on its own: its day, sales and losses that make up
      the demand and never exceed the opening stock (losses only once the
      stock ran out), closing stock within the capacity, a non-negative
      holding cost, acquisition charged on the quantity that arrived before
      the clamp, an order of the missing stock with a lead time of 1 or 2 and
      the ordering cost exactly on order days, and the profit so far. */
  ghost predicate RowOk(p: Params, r: Row, d: nat) {
    r.dia == d &&
    r.ventas + r.perdida == r.demanda && 0.0 <= r.ventas <= r.invIni && 0.0 <= r.perdida &&
    (r.perdida > 0.0 ==> r.ventas == r.invIni) &&
    0.0 <= r.invIni <= p.cap && 0.0 <= r.invFin <= p.cap &&
    0.0 <= r.costoInvDia &&
    r.costoAdqHoy == Amount(r.arriboHoy, p.cadq) &&
    (r.leadAsignado.Some? ==> ReviewDue(d, p.k) && r.pedidoHoy == p.cap - r.invFin > 0.0 &&
                              1 <= r.leadAsignado.value <= 2 && r.costoOrdenarHoy == p.cord) &&
    (r.leadAsignado.None? ==> r.pedidoHoy == 0.0 && r.costoOrdenarHoy == 0.0) &&
    r.gananciaAcum == r.ingresoAcum - r.costoAcum
  }

  /** What a day promises about the state it starts from: one demand draw,
      a lead-time draw only on order days, the countdown of a pending order
      (it arrives when the count reaches 0, otherwise it keeps waiting and no
      order is placed), an order exactly on review days with nothing pending
      and a stock below capacity, and the accumulators grown by the row. */
  ghost predicate DayOk(p: Params, st: Tally, d: nat, next: Tally, r: Row) {
    var o := st.stock.order;
    r.invIni == st.stock.inventario &&
    next.tDem == Advance(st.tDem) &&
    next.tLead == (if r.leadAsignado.Some? then Advance(st.tLead) else st.tLead) &&
    (o.pendiente && o.rest <= 1 ==> r.arriboHoy == o.cantidad) &&
    (!(o.pendiente && o.rest <= 1) ==> r.arriboHoy == 0.0) &&
    (o.pendiente && o.rest > 1 ==> next.stock.order == o.(rest := o.rest - 1) && r.leadAsignado.None?) &&
    (r.leadAsignado.Some? <==> ReviewDue(d, p.k) && !(o.pendiente && o.rest > 1) && r.invFin < p.cap) &&
    (r.leadAsignado.Some? ==> next.stock.order == Order(true, r.pedidoHoy, r.leadAsignado.value)) &&
    next.stock.inventario == r.invFin &&
    next.acc == Acc(st.acc.demandaTotal + r.demanda, st.acc.demandaInsatis + r.perdida,
                    st.acc.ingresoBrutoTotal + r.ingresoDia,
                    st.acc.costoTotal + r.costoAdqHoy + r.costoOrdenarHoy + r.costoInvDia,
                    st.acc.numOrdenes + (if r.leadAsignado.Some? then 1 else 0)) &&
    r.ingresoAcum == next.acc.ingresoBrutoTotal && r.costoAcum == next.acc.costoTotal
  }

  lemma DayFacts(p: Params, demandOf: real -> real, draw: uint32 -> real, st: Tally, d: nat)
    requires Unit01(draw) && DemandNonNeg(demandOf) && p.cin >= 0.0
    requires StockOk(p, st.stock)
    ensures RowOk(p, Day(p, demandOf, draw, st, d).row, d)
    ensures DayOk(p, st, d, Day(p, demandOf, draw, st, d).next, Day(p, demandOf, draw, st, d).row)
  {
    var u := draw(st.tDem);
    assert demandOf(u) >= 0.0;
    var r := Day(p, demandOf, draw, st, d).row;
    HoldingCostNonNeg(r.invIni, r.invFin, p.cin);
  }

  lemma HoldingCostNonNeg(a: real, b: real, cin: real)
    requires a >= 0.0 && b >= 0.0 && cin >= 0.0
    ensures HoldingCost(a, b, cin) >= 0.0
  {
  }

  // ---------------------------------------------------------------------
  // Properties of a trial

  /** What holds after `n` days: the stock keeps its promises, there was at
      most one order a day, and the demand lost is part of the demand. */
  ghost predicate TrialOk(p: Params, st: Tally, n: nat) {
    StockOk(p, st.stock) && st.acc.numOrdenes <= n &&
    0.0 <= st.acc.demandaInsatis <= st.acc.demandaTotal
  }

  lemma {:induction false} TrialInvariant(p: Params, demandOf: real -> real, draw: uint32 -> real,
                                          tDem: uint32, tLead: uint32, n: nat)
    requires Unit01(draw) && DemandNonNeg(demandOf) && p.cap > 0.0 && p.cin >= 0.0
    ensures TrialOk(p, After(p, demandOf, draw, tDem, tLead, n), n)
  {
    if n > 0 {
      TrialInvariant(p, demandOf, draw, tDem, tLead, n - 1);
      var st := After(p, demandOf, draw, tDem, tLead, n - 1);
      DayKeepsStock(p, demandOf, draw, st, n);
      DayFacts(p, demandOf, draw, st, n);
    }
  }

  /** Every row of a trial keeps the promises of a row. */
  lemma RowsShape(p: Params, demandOf: real -> real, draw: uint32 -> real, tDem: uint32, tLead: uint32, n: nat, i: nat)
    requires Unit01(draw) && DemandNonNeg(demandOf) && p.cap > 0.0 && p.cin >= 0.0
    requires i < n
    ensures |Rows(p, demandOf, draw, tDem, tLead, n)| == n
    ensures RowOk(p, Rows(p, demandOf, draw, tDem, tLead, n)[i], i + 1)
  {
    TableAt(DayOf(p, demandOf, draw), Start(p, tDem, tLead), n, i);
    TrialInvariant(p, demandOf, draw, tDem, tLead, i);
    DayFacts(p, demandOf, draw, After(p, demandOf, draw, tDem, tLead, i), i + 1);
  }

  /** What the summary of one trial promises. */
  ghost predicate SummaryOk(p: Params, r: Resumen) {
    r.gananciaNeta == r.ingresoBrutoTotal - r.costoTotal &&
    (r.capacidadSuficiente <==> r.demandaInsatis <= LOST_TOLERANCE) &&
    0.0 <= r.demandaInsatis <= r.demandaTotal &&
    r.numOrdenes <= p.d
  }

  /** The summary: net profit, the capacity verdict, the demand lost within
      the demand, at most one order a day, and one row per day. */
  lemma SummaryFacts(p: Params, demandOf: real -> real, s: nat, baseDem: int, baseLead: int)
    requires DemandNonNeg(demandOf) && p.cap > 0.0 && p.cin >= 0.0
    ensures SummaryOk(p, SimOf(p, demandOf, s, baseDem, baseLead).resumen)
    ensures |SimOf(p, demandOf, s, baseDem, baseLead).rows| == p.d
  {
    var tDem, tLead := TrialSeed(baseDem, s), TrialSeed(baseLead, s);
    DrawUnit01();
    TrialInvariant(p, demandOf, Draw, tDem, tLead, p.d);
    TableLength(DayOf(p, demandOf, Draw), Start(p, tDem, tLead), p.d);
  }

  lemma DrawUnit01()
    ensures Unit01(Draw)
  {
  }

  // ---------------------------------------------------------------------
  // Column sums of the table

  /** The accumulators implied by some rows: the initial stock's cost plus the
      sums of the daily columns, and one order per row with a lead time. */
  function Accumulated(p: Params, rows: seq<Row>): Acc {
    if rows == [] then Acc(0.0, 0.0, 0.0, Amount(p.cap, p.cadq), 0)
    else
      var a := Accumulated(p, rows[..|rows| - 1]);
      var r := rows[|rows| - 1];
      Acc(a.demandaTotal + r.demanda, a.demandaInsatis + r.perdida, a.ingresoBrutoTotal + r.ingresoDia,
          a.costoTotal + r.costoAdqHoy + r.costoOrdenarHoy + r.costoInvDia,
          a.numOrdenes + (if r.leadAsignado.Some? then 1 else 0))
  }

  /** The ordering costs of the rows. */
  function OrderingCost(rows: seq<Row>): real {
    if rows == [] then 0.0 else OrderingCost(rows[..|rows| - 1]) + rows[|rows| - 1].costoOrdenarHoy
  }

  lemma AccumulatedSnoc(p: Params, rows: seq<Row>, r: Row)
    ensures var a := Accumulated(p, rows);
      Accumulated(p, rows + [r])
      == Acc(a.demandaTotal + r.demanda, a.demandaInsatis + r.perdida, a.ingresoBrutoTotal + r.ingresoDia,
             a.costoTotal + r.costoAdqHoy + r.costoOrdenarHoy + r.costoInvDia,
             a.numOrdenes + (if r.leadAsignado.Some? then 1 else 0))
    ensures OrderingCost(rows + [r]) == OrderingCost(rows) + r.costoOrdenarHoy
  {
    assert (rows + [r])[..|rows|] == rows;
  }

  /** One day adds its row to the column sums: the accumulators stay the
      initial stock's cost plus the sums of the table's columns, and the
      ordering costs stay one ordering cost per order placed. */
  lemma AccumulateDay(p: Params, demandOf: real -> real, draw: uint32 -> real, st: Tally, rows: seq<Row>, d: nat)
    requires st.acc == Accumulated(p, rows) && OrderingCost(rows) == Stats.AtPrice(st.acc.numOrdenes, p.cord)
    ensures Day(p, demandOf, draw, st, d).next.acc == Accumulated(p, rows + [Day(p, demandOf, draw, st, d).row])
    ensures OrderingCost(rows + [Day(p, demandOf, draw, st, d).row])
            == Stats.AtPrice(Day(p, demandOf, draw, st, d).next.acc.numOrdenes, p.cord)
  {
    AccumulatedSnoc(p, rows, Day(p, demandOf, draw, st, d).row);
    Stats.AtPriceAdd(st.acc.numOrdenes, 1, p.cord);
  }

  // ---------------------------------------------------------------------
  // The page's computations

  /** The sales of the day: the demand is served while stock lasts. */
  method SellStage(inventario: real, demanda: real) returns (ventas: real, perdida: real, inv: real)
    ensures Sale(ventas, perdida, inv) == Sell(inventario, demanda)
  {
    ventas, perdida, inv := 0.0, 0.0, inventario;
    if demanda <= inv {
      ventas := demanda;
      inv := inv - ventas;
    } else {
      ventas := inv;
      perdida := demanda - inv;
      inv := 0.0;
    }
  }

  /** The arrival of a pending order whose lead time has run out. */
  method ArriveStage(p: Params, inventario: real, order: Order)
      returns (arriboHoy: real, inv: real, order': Order, costoAdqHoy: real)
    ensures Arrival(arriboHoy, inv, order', costoAdqHoy) == Arrive(p, inventario, order)
  {
    arriboHoy, inv, order', costoAdqHoy := 0.0, inventario, order, 0.0;
    if order'.pendiente {
      order' := order'.(rest := order'.rest - 1);
      if order'.rest <= 0 {
        arriboHoy := order'.cantidad;
        inv := inv + arriboHoy;
        order' := order'.(pendiente := false);
        costoAdqHoy := Amount(arriboHoy, p.cadq);
        if inv > p.cap {
          inv := p.cap;
        }
      }
    }
  }

  /** The periodic review: on review days with no order pending, order what
      is missing up to capacity and draw its lead time. */
  method ReviewStage(p: Params, rngLead: Rng, d: nat, inventario: real, order: Order)
      returns (pedidoHoy: real, leadAsignado: Option<nat>, order': Order, costoOrdenarHoy: real)
    modifies rngLead
    ensures Review(pedidoHoy, leadAsignado, order', rngLead.t, costoOrdenarHoy)
            == ReviewStock(p, Draw, d, inventario, order, old(rngLead.t))
  {
    pedidoHoy, leadAsignado, order', costoOrdenarHoy := 0.0, None, order, 0.0;
    if ReviewDue(d, p.k) && !order.pendiente {
      var qty := p.cap - inventario;
      if qty > 0.0 {
        var v := rngLead.Next();
        LeadIsFloor(v);
        var lt: nat := 1 + (v * 2.0).Floor;
        order' := Order(true, qty, lt);
        leadAsignado := Some(lt);
        pedidoHoy := qty;
        costoOrdenarHoy := p.cord;
      }
    }
  }

  /** Day `d` of the loop, from the state `st`: the stages in the page's
      order, the costs added as they are incurred, then holding cost and
      income. */
  method PlayDay(p: Params, demandOf: real -> real, rngDem: Rng, rngLead: Rng, ghost st: Tally, ghost rows: seq<Row>,
                 d: nat, stock: Stock, acc: Acc)
      returns (stock': Stock, acc': Acc, row: Row)
    requires rngDem != rngLead
    requires Tally(rngDem.t, rngLead.t, stock, acc) == st && acc == Accumulated(p, rows)
    requires OrderingCost(rows) == Stats.AtPrice(acc.numOrdenes, p.cord)
    modifies rngDem, rngLead
    ensures Tally(rngDem.t, rngLead.t, stock', acc') == Day(p, demandOf, Draw, st, d).next
    ensures row == Day(p, demandOf, Draw, st, d).row
    ensures acc' == Accumulated(p, rows + [row])
    ensures OrderingCost(rows + [row]) == Stats.AtPrice(acc'.numOrdenes, p.cord)
  {
    var invIni := stock.inventario;
    var u := rngDem.Next();
    var demanda := demandOf(u);
    var ventas, perdida, inventario := SellStage(invIni, demanda);
    var arriboHoy, order, costoAdqHoy;
    arriboHoy, inventario, order, costoAdqHoy := ArriveStage(p, inventario, stock.order);
    var pedidoHoy, leadAsignado, costoOrdenarHoy;
    pedidoHoy, leadAsignado, order, costoOrdenarHoy := ReviewStage(p, rngLead, d, inventario, order);
    var costoInvDia := HoldingCost(invIni, inventario, p.cin);
    var ingresoDia := Amount(ventas, p.pv);

    var costoTotal := acc.costoTotal + costoAdqHoy + costoOrdenarHoy + costoInvDia;
    var numOrdenes := acc.numOrdenes + (if leadAsignado.Some? then 1 else 0);
    acc' := Acc(acc.demandaTotal + demanda, acc.demandaInsatis + perdida, acc.ingresoBrutoTotal + ingresoDia,
                costoTotal, numOrdenes);
    stock' := Stock(inventario, order);
    row := Row(d, invIni, demanda, ventas, perdida, pedidoHoy, leadAsignado, arriboHoy, inventario, costoInvDia,
               costoOrdenarHoy, costoAdqHoy, ingresoDia, acc'.ingresoBrutoTotal, costoTotal,
               acc'.ingresoBrutoTotal - costoTotal);
    AccumulateDay(p, demandOf, Draw, st, rows, d);
  }

  /** The day loop of one trial. The accumulators are the initial stock's
      cost plus the sums of the table's columns, and the ordering costs are
      one ordering cost per order. */
  method PlayTrial(p: Params, demandOf: real -> real, s: nat, baseDem: int, baseLead: int) returns (sim: Sim)
    ensures sim == SimOf(p, demandOf, s, baseDem, baseLead)
    ensures Accumulated(p, sim.rows)
            == Acc(sim.resumen.demandaTotal, sim.resumen.demandaInsatis, sim.resumen.ingresoBrutoTotal,
                   sim.resumen.costoTotal, sim.resumen.numOrdenes)
    ensures OrderingCost(sim.rows) == Stats.AtPrice(sim.resumen.numOrdenes, p.cord)
  {
    var rngDem := new Rng(baseDem + s);
    var rngLead := new Rng(baseLead + s);
    ghost var tDem, tLead := TrialSeed(baseDem, s), TrialSeed(baseLead, s);
    var stock := Stock(p.cap, Order(false, 0.0, 0));
    var acc := Acc(0.0, 0.0, 0.0, Amount(p.cap, p.cadq), 0);
    var rows := [];
    var d := 1;
    while d <= p.d
      invariant 1 <= d <= p.d + 1
      invariant Tally(rngDem.t, rngLead.t, stock, acc) == After(p, demandOf, Draw, tDem, tLead, d - 1)
      invariant rows == Rows(p, demandOf, Draw, tDem, tLead, d - 1)
      invariant acc == Accumulated(p, rows)
      invariant OrderingCost(rows) == Stats.AtPrice(acc.numOrdenes, p.cord)
    {
      var row;
      stock, acc, row := PlayDay(p, demandOf, rngDem, rngLead, After(p, demandOf, Draw, tDem, tLead, d - 1), rows,
                                 d, stock, acc);
      rows := rows + [row];
      d := d + 1;
    }
    sim := Summarize(p, s, baseDem, baseLead, Tally(rngDem.t, rngLead.t, stock, acc), rows);
  }

  /** All trials: none when the form is not ready, otherwise trial `s` for
      every `s` below the trial count. */
  method Simulate(p: Params, demandOf: real -> real, simCount: nat, epoch: uint32) returns (sims: seq<Sim>)
    ensures !Ready(p, simCount) ==> sims == []
    ensures Ready(p, simCount) ==> sims == Trials(p, demandOf, simCount, epoch)
  {
    if !Ready(p, simCount) {
      return [];
    }
    var baseDem := BaseDem(epoch);
    var baseLead := BaseLead(epoch);
    sims := [];
    var s := 0;
    while s < simCount
      invariant 0 <= s <= simCount
      invariant sims == Trials(p, demandOf, s, epoch)
    {
      var sim := PlayTrial(p, demandOf, s, baseDem, baseLead);
      sims := sims + [sim];
      s := s + 1;
    }
  }

  // ---------------------------------------------------------------------
  // Averages over the trials

  function IBColumn(sims: seq<Sim>): seq<real> {
    seq(|sims|, i requires 0 <= i < |sims| => sims[i].resumen.ingresoBrutoTotal)
  }

  function DIColumn(sims: seq<Sim>): seq<real> {
    seq(|sims|, i requires 0 <= i < |sims| => sims[i].resumen.demandaInsatis)
  }

  function CTColumn(sims: seq<Sim>): seq<real> {
    seq(|sims|, i requires 0 <= i < |sims| => sims[i].resumen.costoTotal)
  }

  function GNColumn(sims: seq<Sim>): seq<real> {
    seq(|sims|, i requires 0 <= i < |sims| => sims[i].resumen.gananciaNeta)
  }

  function NOColumn(sims: seq<Sim>): seq<real> {
    seq(|sims|, i requires 0 <= i < |sims| => sims[i].resumen.numOrdenes as real)
  }

  /** The number of trials with enough capacity. */
  function CapOK(sims: seq<Sim>): (n: nat)
    ensures n <= |sims|
  {
    if sims == [] then 0
    else CapOK(sims[..|sims| - 1]) + (if sims[|sims| - 1].resumen.capacidadSuficiente then 1 else 0)
  }

  /** `agregados`: `null` without trials, otherwise the means of five summary
      fields and the share of trials with enough capacity. */
  method ComputeAgregados(sims: seq<Sim>) returns (agg: Option<Agregados>)
    ensures sims == [] <==> agg == None
    ensures sims != [] ==>
      agg == Some(Agregados(Stats.Mean(IBColumn(sims)), Stats.Mean(DIColumn(sims)), Stats.Mean(CTColumn(sims)),
                            Stats.Mean(GNColumn(sims)), Stats.Mean(NOColumn(sims)),
                            CapOK(sims) as real / |sims| as real, |sims|))
  {
    if |sims| == 0 {
      return None;
    }
    var sumIB, sumDI, sumCT, sumGN, sumNO := 0.0, 0.0, 0.0, 0.0, 0.0;
    var okCap := 0;
    var i := 0;
    while i < |sims|
      invariant 0 <= i <= |sims|
      invariant sumIB == Stats.Sum(IBColumn(sims)[..i])
      invariant sumDI == Stats.Sum(DIColumn(sims)[..i])
      invariant sumCT == Stats.Sum(CTColumn(sims)[..i])
      invariant sumGN == Stats.Sum(GNColumn(sims)[..i])
      invariant sumNO == Stats.Sum(NOColumn(sims)[..i])
      invariant okCap == CapOK(sims[..i])
    {
      Stats.SumSnoc(IBColumn(sims), i);
      Stats.SumSnoc(DIColumn(sims), i);
      Stats.SumSnoc(CTColumn(sims), i);
      Stats.SumSnoc(GNColumn(sims), i);
      Stats.SumSnoc(NOColumn(sims), i);
      assert sims[..i + 1][..i] == sims[..i];
      sumIB := sumIB + sims[i].resumen.ingresoBrutoTotal;
      sumDI := sumDI + sims[i].resumen.demandaInsatis;
      sumCT := sumCT + sims[i].resumen.costoTotal;
      sumGN := sumGN + sims[i].resumen.gananciaNeta;
      sumNO := sumNO + sims[i].resumen.numOrdenes as real;
      if sims[i].resumen.capacidadSuficiente {
        okCap := okCap + 1;
      }
      i := i + 1;
    }
    assert IBColumn(sims)[..i] == IBColumn(sims);
    assert DIColumn(sims)[..i] == DIColumn(sims);
    assert CTColumn(sims)[..i] == CTColumn(sims);
    assert GNColumn(sims)[..i] == GNColumn(sims);
    assert NOColumn(sims)[..i] == NOColumn(sims);
    assert sims[..i] == sims;
    var S := |sims| as real;
    agg := Some(Agregados(sumIB / S, sumDI / S, sumCT / S, sumGN / S, sumNO / S, okCap as real / S, |sims|));
  }

  /** The mean net profit is the mean income less the mean cost. */
  lemma MeanProfit(sims: seq<Sim>)
    requires sims != []
    requires forall i :: 0 <= i < |sims| ==>
      sims[i].resumen.gananciaNeta == sims[i].resumen.ingresoBrutoTotal - sims[i].resumen.costoTotal
    ensures Stats.Mean(GNColumn(sims)) == Stats.Mean(IBColumn(sims)) - Stats.Mean(CTColumn(sims))
  {
    Stats.MeanDiff(IBColumn(sims), CTColumn(sims), GNColumn(sims));
  }

  /** The mean demand lost is not negative. */
  lemma MeanLost(sims: seq<Sim>)
    requires sims != []
    requires forall i :: 0 <= i < |sims| ==> 0.0 <= sims[i].resumen.demandaInsatis
    ensures 0.0 <= Stats.Mean(DIColumn(sims))
  {
    Stats.MeanNonNeg(DIColumn(sims));
  }

  /** With at most `d` orders per trial, the mean order count lies in [0, d]. */
  lemma MeanOrders(sims: seq<Sim>, d: nat)
    requires sims != []
    requires forall i :: 0 <= i < |sims| ==> sims[i].resumen.numOrdenes <= d
    ensures 0.0 <= Stats.Mean(NOColumn(sims)) <= d as real
  {
    Stats.MeanBounds(NOColumn(sims), 0.0, d as real);
  }

  /** The share of trials with enough capacity is a fraction, and it is 1
      exactly when every trial lost no more than the tolerance. */
  lemma {:induction false} CapShare(sims: seq<Sim>)
    requires sims != []
    requires forall i :: 0 <= i < |sims| ==>
      (sims[i].resumen.capacidadSuficiente <==> sims[i].resumen.demandaInsatis <= LOST_TOLERANCE)
    ensures 0.0 <= CapOK(sims) as real / |sims| as real <= 1.0
    ensures CapOK(sims) == |sims| <==> forall i :: 0 <= i < |sims| ==> sims[i].resumen.demandaInsatis <= LOST_TOLERANCE
  {
    FractionBounds(CapOK(sims), |sims|);
    AllCapOK(sims);
  }

  lemma {:induction false} AllCapOK(sims: seq<Sim>)
    ensures CapOK(sims) == |sims| <==> forall i :: 0 <= i < |sims| ==> sims[i].resumen.capacidadSuficiente
  {
    if sims != [] {
      var n := |sims| - 1;
      AllCapOK(sims[..n]);
      assert forall i :: 0 <= i < n ==> sims[..n][i] == sims[i];
    }
  }

  lemma FractionBounds(a: nat, b: nat)
    requires 0 < b && a <= b
    ensures 0.0 <= a as real / b as real <= 1.0
  {
  }

  /** Over the trials of one run. */
  lemma AgregadosFacts(p: Params, demandOf: real -> real, simCount: nat, epoch: uint32)
    requires Ready(p, simCount) && DemandNonNeg(demandOf)
    ensures var sims := Trials(p, demandOf, simCount, epoch);
      Stats.Mean(GNColumn(sims)) == Stats.Mean(IBColumn(sims)) - Stats.Mean(CTColumn(sims)) &&
      0.0 <= Stats.Mean(DIColumn(sims)) &&
      0.0 <= Stats.Mean(NOColumn(sims)) <= p.d as real &&
      0.0 <= CapOK(sims) as real / |sims| as real <= 1.0 &&
      (CapOK(sims) == |sims| <==> forall i :: 0 <= i < |sims| ==> sims[i].resumen.demandaInsatis <= LOST_TOLERANCE)
  {
    var sims := Trials(p, demandOf, simCount, epoch);
    forall s | 0 <= s < simCount
      ensures SummaryOk(p, sims[s].resumen)
    {
      SummaryFacts(p, demandOf, s, BaseDem(epoch), BaseLead(epoch));
    }
    MeanProfit(sims);
    MeanLost(sims);
    MeanOrders(sims, p.d);
    CapShare(sims);
  }
}
