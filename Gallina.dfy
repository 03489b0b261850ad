/** The hen (`src/pages/ejercicios/Gallina.jsx`): every day one draw of the
    eggs generator gives the eggs laid (a Poisson(1) count cut at 4, read from
    a table of cumulative probabilities). Each egg takes one draw of the event
    generator: it breaks, hatches or stays an egg to be sold. A hatched chick
    takes one draw of the survival generator and is sold if it survives.
    A trial adds up the days and subtracts a fixed cost of 300; several trials
    are run from seeds derived from the epoch and averaged. */
module Gallina {
  import opened JsInt
  import opened Mulberry32
  import opened Seeding
  import opened Options
  import opened Ledger
  import Stats

  const SEED_HUEVOS: nat := 13579
  const SEED_EVENTO: nat := 24680
  const SEED_SOBREV: nat := 86420

  const P_ROTO: real := 0.2
  const P_ECLOSIONA: real := 0.3
  const P_SOBREVIVE: real := 0.8
  /** The fixed cost subtracted from a trial's income. */
  const CF: real := 300.0

  /** The parsed form: days simulated (NMD) and the unit prices of an egg
      (PVUH) and of a chick (PVUP). */
  datatype Params = Params(nmd: nat, pvuh: real, pvup: real)

  /** The page's `ready` check, with the trial count limited to 1..30. */
  predicate Ready(p: Params, simCount: nat) {
    p.nmd > 0 && p.pvuh >= 0.0 && p.pvup >= 0.0 && 0 < simCount <= 30
  }

  // ---------------------------------------------------------------------
  // Eggs laid in a day

  /** One entry of the table: draws below `t` lay `k` eggs. */
  datatype Threshold = Threshold(t: real, k: nat)

  /** The cumulative probabilities of Poisson(1), cut at 4 eggs. */
  const POISSON_L1_THRESHOLDS: seq<Threshold> :=
    [Threshold(0.37, 0), Threshold(0.74, 1), Threshold(0.92, 2), Threshold(0.98, 3), Threshold(1.0, 4)]

  /** The eggs laid for a draw `u`: the count of the first entry of the table
      whose threshold lies above `u`. */
  function HuevosPorU(u: real): (k: nat)
    ensures k <= 4
  {
    if u < 0.37 then 0 else if u < 0.74 then 1 else if u < 0.92 then 2 else if u < 0.98 then 3 else 4
  }

  /** `huevosPoissonLambda1`: scans the table in order and returns the count
      of the first threshold above `u`, and 4 when none is. */
  method HuevosPoissonLambda1(u: real) returns (k: nat)
    ensures k == HuevosPorU(u)
  {
    var i := 0;
    while i < |POISSON_L1_THRESHOLDS|
      invariant 0 <= i <= |POISSON_L1_THRESHOLDS|
      invariant i > 0 ==> u >= POISSON_L1_THRESHOLDS[i - 1].t
    {
      if u < POISSON_L1_THRESHOLDS[i].t {
        return POISSON_L1_THRESHOLDS[i].k;
      }
      i := i + 1;
    }
    return 4;
  }

  /** A larger draw never lays fewer eggs, and no egg is laid exactly when
      the draw is below 0.37. */
  lemma HuevosMonotone(u: real, v: real)
    requires u <= v
    ensures HuevosPorU(u) <= HuevosPorU(v)
    ensures HuevosPorU(u) == 0 <==> u < 0.37
  {
  }

  // ---------------------------------------------------------------------
  // The eggs of one day

  /** The counters of one day with the states of the event and survival
      generators. */
  datatype DayTally = DayTally(tE: uint32, tS: uint32, rotos: nat, perm: nat, pollos: nat, ingreso: real)

  /** An event draw that hatches the egg. */
  predicate Hatches(u: real) {
    P_ROTO <= u < P_ROTO + P_ECLOSIONA
  }

  /** One egg: an event draw below 0.2 breaks it, one below 0.5 hatches it
      and a survival draw below 0.8 sells the chick, any other keeps it as an
      egg to be sold. */
  function Egg(p: Params, draw: uint32 -> real, e: DayTally): DayTally
  {
    var u := draw(e.tE);
    var tE := Advance(e.tE);
    if u < P_ROTO then
      e.(tE := tE, rotos := e.rotos + 1)
    else if u < P_ROTO + P_ECLOSIONA then
      if draw(e.tS) < P_SOBREVIVE then
        e.(tE := tE, tS := Advance(e.tS), pollos := e.pollos + 1, ingreso := e.ingreso + p.pvup)
      else
        e.(tE := tE, tS := Advance(e.tS))
    else
      e.(tE := tE, perm := e.perm + 1, ingreso := e.ingreso + p.pvuh)
  }

  /** The first `k` eggs of a day, from the counters `e0`. */
  function Eggs(p: Params, draw: uint32 -> real, e0: DayTally, k: nat): DayTally
  {
    if k == 0 then e0 else Egg(p, draw, Eggs(p, draw, e0, k - 1))
  }

  /** The counters at the start of a day. */
  function DayStart(tE: uint32, tS: uint32): DayTally {
    DayTally(tE, tS, 0, 0, 0, 0.0)
  }

  /** How many of `k` eggs hatch when the event generator starts in `tE`. */
  function Hatched(draw: uint32 -> real, tE: uint32, k: nat): nat
  {
    if k == 0 then 0 else Hatched(draw, tE, k - 1) + (if Hatches(draw(StateAfter(tE, k - 1))) then 1 else 0)
  }

  /** What the day's counters promise after `k` eggs: one event draw per
      egg, one survival draw per hatched egg, every egg broken, hatched or
      kept, no more chicks than hatched eggs, and the income from the eggs
      and chicks sold. */
  ghost predicate EggsOk(p: Params, draw: uint32 -> real, tE: uint32, tS: uint32, k: nat, e: DayTally) {
    var hatched := Hatched(draw, tE, k);
    e.tE == StateAfter(tE, k) && e.tS == StateAfter(tS, hatched) &&
    e.rotos + e.perm + hatched == k && e.pollos <= hatched &&
    e.ingreso == Stats.AtPrice(e.perm, p.pvuh) + Stats.AtPrice(e.pollos, p.pvup)
  }

  lemma {:induction false} EggsFacts(p: Params, draw: uint32 -> real, tE: uint32, tS: uint32, k: nat)
    ensures EggsOk(p, draw, tE, tS, k, Eggs(p, draw, DayStart(tE, tS), k))
  {
    if k > 0 {
      EggsFacts(p, draw, tE, tS, k - 1);
      EggStep(p, draw, tE, tS, k, Eggs(p, draw, DayStart(tE, tS), k - 1));
    }
  }

  /** One more egg keeps the promises of the day's counters. */
  lemma EggStep(p: Params, draw: uint32 -> real, tE: uint32, tS: uint32, k: nat, e: DayTally)
    requires k > 0 && EggsOk(p, draw, tE, tS, k - 1, e)
    ensures EggsOk(p, draw, tE, tS, k, Egg(p, draw, e))
  {
  }

  // ---------------------------------------------------------------------
  // Days and trials

  /** The four running totals of a trial. */
  datatype Totals = Totals(totalRotos: nat, totalPerm: nat, totalPollos: nat, ingresoAcum: real)

  /** The totals with the states of the trial's three generators. */
  datatype Tally = Tally(tH: uint32, tE: uint32, tS: uint32, totals: Totals)

  /** One row of the day table. */
  datatype Row = Row(dia: nat, huevosPuestos: nat, huevosRotos: nat, huevosVendidos: nat, pollosVendidos: nat,
                     ingresoDia: real, ingresoAcum: real)

  datatype Resumen = Resumen(nmd: nat, pvuh: real, pvup: real, cf: real,
                             seedHuevos: int, seedEvento: int, seedSobrev: int,
                             totalRotos: nat, totalPerm: nat, totalPollos: nat,
                             ingresoTotal: real, ingresoNeto: real, ingresoPromedioDiario: real)

  datatype Sim = Sim(simIndex: nat, resumen: Resumen, rows: seq<Row>)

  datatype Agregados = Agregados(promRotos: real, promPerm: real, promPollos: real,
                                 promIT: real, promIN: real, promIPD: real, s: nat)

  /** The eggs laid on a day that starts in state `st`. */
  function Puestos(draw: uint32 -> real, st: Tally): nat {
    HuevosPorU(draw(st.tH))
  }

  /** The counters at the end of that day. */
  function DayEggs(p: Params, draw: uint32 -> real, st: Tally): DayTally {
    Eggs(p, draw, DayStart(st.tE, st.tS), Puestos(draw, st))
  }

  /** The row of day `d`. */
  function DayRow(p: Params, draw: uint32 -> real, st: Tally, d: nat): Row {
    var e := DayEggs(p, draw, st);
    Row(d, Puestos(draw, st), e.rotos, e.perm, e.pollos, e.ingreso, st.totals.ingresoAcum + e.ingreso)
  }

  /** The state after day `d`. */
  function Step(p: Params, draw: uint32 -> real, st: Tally, d: nat): Tally {
    var e := DayEggs(p, draw, st);
    Tally(Advance(st.tH), e.tE, e.tS, Add(st.totals, e))
  }

  /** The totals with a day's counters added. */
  function Add(t: Totals, e: DayTally): Totals {
    Totals(t.totalRotos + e.rotos, t.totalPerm + e.perm, t.totalPollos + e.pollos, t.ingresoAcum + e.ingreso)
  }

  /** Day `d` from state `st`: the new state and the row of the day. */
  function Day(p: Params, draw: uint32 -> real, st: Tally, d: nat): Outcome<Tally, Row> {
    Outcome(Step(p, draw, st, d), DayRow(p, draw, st, d))
  }

  /** The loop body as a function of the state and the day. */
  function DayOf(p: Params, draw: uint32 -> real): (Tally, nat) -> Outcome<Tally, Row> {
    (st: Tally, d: nat) => Day(p, draw, st, d)
  }

  /** Fresh generators in states `tH`, `tE`, `tS` and zero totals. */
  function Start(tH: uint32, tE: uint32, tS: uint32): Tally {
    Tally(tH, tE, tS, Totals(0, 0, 0, 0.0))
  }

  /** The state after `n` days. */
  function After(p: Params, draw: uint32 -> real, tH: uint32, tE: uint32, tS: uint32, n: nat): Tally
  {
    Run(DayOf(p, draw), Start(tH, tE, tS), n)
  }

  /** The table of the first `n` days. */
  function Rows(p: Params, draw: uint32 -> real, tH: uint32, tE: uint32, tS: uint32, n: nat): seq<Row>
  {
    Table(DayOf(p, draw), Start(tH, tE, tS), n)
  }

  /** One more day extends the totals by a step and the table by a row. */
  lemma AfterStep(p: Params, draw: uint32 -> real, tH: uint32, tE: uint32, tS: uint32, n: nat)
    ensures After(p, draw, tH, tE, tS, n + 1) == Step(p, draw, After(p, draw, tH, tE, tS, n), n + 1)
    ensures Rows(p, draw, tH, tE, tS, n + 1)
            == Rows(p, draw, tH, tE, tS, n) + [DayRow(p, draw, After(p, draw, tH, tE, tS, n), n + 1)]
  {
  }

  /** The summary of trial `s` once its days are played. */
  function Summarize(p: Params, s: nat, baseH: int, baseE: int, baseS: int, fin: Tally, rows: seq<Row>): Sim
    requires p.nmd > 0
  {
    var total := fin.totals.ingresoAcum;
    Sim(s, Resumen(p.nmd, p.pvuh, p.pvup, CF, baseH + s, baseE + s, baseS + s,
                   fin.totals.totalRotos, fin.totals.totalPerm, fin.totals.totalPollos,
                   total, total - CF, total / p.nmd as real), rows)
  }

  /** Trial `s` with `rngX = mulberry32(baseX + s)` for its three generators. */
  function SimOf(p: Params, s: nat, baseH: int, baseE: int, baseS: int): Sim
    requires p.nmd > 0
  {
    var tH := TrialSeed(baseH, s);
    var tE := TrialSeed(baseE, s);
    var tS := TrialSeed(baseS, s);
    Summarize(p, s, baseH, baseE, baseS, After(p, Draw, tH, tE, tS, p.nmd), Rows(p, Draw, tH, tE, tS, p.nmd))
  }

  function BaseHuevos(epoch: uint32): int { AddedBase(SEED_HUEVOS, epoch) }
  function BaseEvento(epoch: uint32): int { XoredBase(SEED_EVENTO, epoch) }
  function BaseSobrev(epoch: uint32): int { HalvedBase(SEED_SOBREV, epoch) }

  function TrialAt(p: Params, epoch: uint32, s: nat): Sim
    requires p.nmd > 0
  {
    SimOf(p, s, BaseHuevos(epoch), BaseEvento(epoch), BaseSobrev(epoch))
  }

  function Trials(p: Params, simCount: nat, epoch: uint32): seq<Sim>
    requires p.nmd > 0
  {
    seq(simCount, s requires 0 <= s < simCount => TrialAt(p, epoch, s))
  }

  /** One more trial appends trial `s` to the runs. */
  lemma TrialsSnoc(p: Params, s: nat, epoch: uint32)
    requires p.nmd > 0
    ensures Trials(p, s + 1, epoch) == Trials(p, s, epoch) + [TrialAt(p, epoch, s)]
  {
  }

  // ---------------------------------------------------------------------
  // Properties of one day and of one trial

  /** What a day promises: its number, at most four eggs, one event draw per
      egg and one survival draw per hatched egg, the eggs that are neither
      broken nor sold nor sold as chicks being the hatched chicks that died,
      the day's income from the eggs and chicks sold, and the running income
      grown by it. */
  ghost predicate DayOk(p: Params, draw: uint32 -> real, st: Tally, d: nat) {
    var r := DayRow(p, draw, st, d);
    var st' := Step(p, draw, st, d);
    var hatched := Hatched(draw, st.tE, r.huevosPuestos);
    r.dia == d && r.huevosPuestos <= 4 &&
    st'.tH == Advance(st.tH) &&
    st'.tE == StateAfter(st.tE, r.huevosPuestos) && st'.tS == StateAfter(st.tS, hatched) &&
    r.huevosRotos + r.huevosVendidos + r.pollosVendidos <= r.huevosPuestos &&
    r.huevosPuestos - (r.huevosRotos + r.huevosVendidos + r.pollosVendidos) == hatched - r.pollosVendidos &&
    r.ingresoDia == Stats.AtPrice(r.huevosVendidos, p.pvuh) + Stats.AtPrice(r.pollosVendidos, p.pvup) &&
    r.ingresoAcum == st.totals.ingresoAcum + r.ingresoDia
  }

  lemma DayFacts(p: Params, draw: uint32 -> real, st: Tally, d: nat)
    ensures DayOk(p, draw, st, d)
  {
    EggsFacts(p, draw, st.tE, st.tS, Puestos(draw, st));
  }

  /** The running income is the eggs sold at the egg price plus the chicks
      sold at the chick price. */
  ghost predicate TotalsOk(p: Params, t: Totals) {
    t.ingresoAcum == Stats.AtPrice(t.totalPerm, p.pvuh) + Stats.AtPrice(t.totalPollos, p.pvup)
  }

  lemma StepKeepsTotals(p: Params, draw: uint32 -> real, st: Tally, d: nat)
    requires TotalsOk(p, st.totals)
    ensures TotalsOk(p, Step(p, draw, st, d).totals)
  {
    var e := DayEggs(p, draw, st);
    DayFacts(p, draw, st, d);
    Stats.AtPriceAdd(st.totals.totalPerm, e.perm, p.pvuh);
    Stats.AtPriceAdd(st.totals.totalPollos, e.pollos, p.pvup);
  }

  /** After any number of days the income is in that form, and at most four
      eggs a day were broken, kept or hatched into chicks sold. */
  lemma {:induction false} TotalsClosedForm(p: Params, draw: uint32 -> real, tH: uint32, tE: uint32, tS: uint32, n: nat)
    ensures TotalsOk(p, After(p, draw, tH, tE, tS, n).totals)
    ensures var t := After(p, draw, tH, tE, tS, n).totals; t.totalRotos + t.totalPerm + t.totalPollos <= 4 * n
  {
    if n > 0 {
      TotalsClosedForm(p, draw, tH, tE, tS, n - 1);
      var prev := After(p, draw, tH, tE, tS, n - 1);
      StepKeepsTotals(p, draw, prev, n);
      DayFacts(p, draw, prev, n);
    }
  }

  /** The `ingresoAcum` column is the running sum of the `ingresoDia` column:
      the first day shows its own income, every later day the previous day's
      figure plus its own. */
  lemma RunningIncome(p: Params, draw: uint32 -> real, tH: uint32, tE: uint32, tS: uint32, n: nat, i: nat)
    requires i < n
    ensures |Rows(p, draw, tH, tE, tS, n)| == n
    ensures Rows(p, draw, tH, tE, tS, n)[i].ingresoAcum
            == (if i == 0 then 0.0 else Rows(p, draw, tH, tE, tS, n)[i - 1].ingresoAcum)
               + Rows(p, draw, tH, tE, tS, n)[i].ingresoDia
  {
    TableAt(DayOf(p, draw), Start(tH, tE, tS), n, i);
    if i > 0 {
      TableAt(DayOf(p, draw), Start(tH, tE, tS), n, i - 1);
      AfterStep(p, draw, tH, tE, tS, i - 1);
      assert Rows(p, draw, tH, tE, tS, n)[i - 1].ingresoAcum == After(p, draw, tH, tE, tS, i).totals.ingresoAcum;
    } else {
      assert After(p, draw, tH, tE, tS, 0) == Start(tH, tE, tS);
    }
  }

  /** The income of the trial is the last row's `ingresoAcum`. */
  lemma FinalIncome(p: Params, draw: uint32 -> real, tH: uint32, tE: uint32, tS: uint32, n: nat)
    requires n > 0
    ensures |Rows(p, draw, tH, tE, tS, n)| == n
    ensures After(p, draw, tH, tE, tS, n).totals.ingresoAcum == Rows(p, draw, tH, tE, tS, n)[n - 1].ingresoAcum
  {
    TableAt(DayOf(p, draw), Start(tH, tE, tS), n, n - 1);
    AfterStep(p, draw, tH, tE, tS, n - 1);
  }

  /** The totals of the daily columns of some rows. */
  function TotalsOf(rows: seq<Row>): Totals {
    if rows == [] then Totals(0, 0, 0, 0.0)
    else
      var t := TotalsOf(rows[..|rows| - 1]);
      var r := rows[|rows| - 1];
      Totals(t.totalRotos + r.huevosRotos, t.totalPerm + r.huevosVendidos, t.totalPollos + r.pollosVendidos,
             t.ingresoAcum + r.ingresoDia)
  }

  /** One more row adds its daily figures to the totals of the columns. */
  lemma TotalsOfSnoc(rows: seq<Row>, r: Row)
    ensures TotalsOf(rows + [r])
            == Totals(TotalsOf(rows).totalRotos + r.huevosRotos, TotalsOf(rows).totalPerm + r.huevosVendidos,
                      TotalsOf(rows).totalPollos + r.pollosVendidos, TotalsOf(rows).ingresoAcum + r.ingresoDia)
  {
    assert (rows + [r])[..|rows|] == rows;
  }

  /** What the summary of one trial promises. */
  ghost predicate SummaryOk(p: Params, r: Resumen) {
    CountsOk(p, r) && IncomeOk(p, r) && DailyOk(p, r)
  }

  /** At most four eggs a day were broken, kept or sold as chicks. */
  ghost predicate CountsOk(p: Params, r: Resumen) {
    r.totalRotos + r.totalPerm + r.totalPollos <= 4 * p.nmd
  }

  /** The income is the eggs kept and the chicks sold at their prices, and the
      net income is the income less the fixed cost. */
  ghost predicate IncomeOk(p: Params, r: Resumen) {
    r.ingresoTotal == Stats.AtPrice(r.totalPerm, p.pvuh) + Stats.AtPrice(r.totalPollos, p.pvup) &&
    r.ingresoNeto == r.ingresoTotal - CF
  }

  /** The daily mean income times the days is the income. */
  ghost predicate DailyOk(p: Params, r: Resumen) {
    r.ingresoPromedioDiario * (p.nmd as real) == r.ingresoTotal
  }

  /** The summary: at most four eggs a day, income from the eggs and chicks
      sold, net income after the fixed cost, the daily mean income, and one
      row per day. */
  lemma SummaryFacts(p: Params, s: nat, baseH: int, baseE: int, baseS: int)
    requires p.nmd > 0
    ensures SummaryOk(p, SimOf(p, s, baseH, baseE, baseS).resumen)
    ensures |SimOf(p, s, baseH, baseE, baseS).rows| == p.nmd
  {
    var tH, tE, tS := TrialSeed(baseH, s), TrialSeed(baseE, s), TrialSeed(baseS, s);
    TotalsClosedForm(p, Draw, tH, tE, tS, p.nmd);
    TableLength(DayOf(p, Draw), Start(tH, tE, tS), p.nmd);
    SummarizeOk(p, s, baseH, baseE, baseS, After(p, Draw, tH, tE, tS, p.nmd), Rows(p, Draw, tH, tE, tS, p.nmd));
  }

  /** Summarizing totals in closed form gives a summary that keeps its promises. */
  lemma SummarizeOk(p: Params, s: nat, baseH: int, baseE: int, baseS: int, fin: Tally, rows: seq<Row>)
    requires p.nmd > 0 && TotalsOk(p, fin.totals)
    requires fin.totals.totalRotos + fin.totals.totalPerm + fin.totals.totalPollos <= 4 * p.nmd
    ensures SummaryOk(p, Summarize(p, s, baseH, baseE, baseS, fin, rows).resumen)
  {
    DivTimes(fin.totals.ingresoAcum, p.nmd as real);
  }

  lemma DivTimes(x: real, n: real)
    requires n > 0.0
    ensures (x / n) * n == x
  {
  }

  // ---------------------------------------------------------------------
  // The page's computations

  /** One egg of the egg loop: an event draw, and a survival draw when the
      egg hatches. */
  method OneEgg(p: Params, rngE: Rng, rngS: Rng, rotos: nat, perm: nat, pollos: nat, ingreso: real)
      returns (rotos': nat, perm': nat, pollos': nat, ingreso': real)
    requires rngE != rngS
    modifies rngE, rngS
    ensures DayTally(rngE.t, rngS.t, rotos', perm', pollos', ingreso')
            == Egg(p, Draw, DayTally(old(rngE.t), old(rngS.t), rotos, perm, pollos, ingreso))
  {
    rotos', perm', pollos', ingreso' := rotos, perm, pollos, ingreso;
    var u := rngE.Next();
    if u < P_ROTO {
      rotos' := rotos' + 1;
    } else if u < P_ROTO + P_ECLOSIONA {
      var v := rngS.Next();
      if v < P_SOBREVIVE {
        pollos' := pollos' + 1;
        ingreso' := ingreso' + p.pvup;
      }
    } else {
      perm' := perm' + 1;
      ingreso' := ingreso' + p.pvuh;
    }
  }

  /** The egg loop of one day. */
  method LayEggs(p: Params, rngE: Rng, rngS: Rng, puestos: nat)
      returns (rotos: nat, perm: nat, pollos: nat, ingreso: real)
    requires rngE != rngS
    modifies rngE, rngS
    ensures DayTally(rngE.t, rngS.t, rotos, perm, pollos, ingreso)
            == Eggs(p, Draw, DayStart(old(rngE.t), old(rngS.t)), puestos)
  {
    ghost var e0 := DayStart(rngE.t, rngS.t);
    rotos, perm, pollos, ingreso := 0, 0, 0, 0.0;
    var i := 0;
    while i < puestos
      invariant 0 <= i <= puestos
      invariant DayTally(rngE.t, rngS.t, rotos, perm, pollos, ingreso) == Eggs(p, Draw, e0, i)
    {
      rotos, perm, pollos, ingreso := OneEgg(p, rngE, rngS, rotos, perm, pollos, ingreso);
      i := i + 1;
    }
  }

  /** Day `d` of the loop, from the state `st` of the generators and totals:
      the eggs laid, their outcomes, and the day's counts added to the totals. */
  method PlayDay(p: Params, rngH: Rng, rngE: Rng, rngS: Rng, ghost st: Tally, ghost rows: seq<Row>, d: nat,
                 totals: Totals)
      returns (totals': Totals, row: Row)
    requires rngH != rngE && rngH != rngS && rngE != rngS
    requires Tally(rngH.t, rngE.t, rngS.t, totals) == st && totals == TotalsOf(rows)
    modifies rngH, rngE, rngS
    ensures Tally(rngH.t, rngE.t, rngS.t, totals') == Step(p, Draw, st, d)
    ensures row == DayRow(p, Draw, st, d)
    ensures totals' == TotalsOf(rows + [row])
  {
    var u := rngH.Next();
    var puestos := HuevosPoissonLambda1(u);
    var rotos, perm, pollos, ingreso := LayEggs(p, rngE, rngS, puestos);
    totals' := Totals(totals.totalRotos + rotos, totals.totalPerm + perm, totals.totalPollos + pollos,
                      totals.ingresoAcum + ingreso);
    row := Row(d, puestos, rotos, perm, pollos, ingreso, totals'.ingresoAcum);
    TotalsOfSnoc(rows, row);
  }

  /** The day loop of one trial, with its three generators. */
  method PlayTrial(p: Params, s: nat, baseH: int, baseE: int, baseS: int) returns (sim: Sim)
    requires p.nmd > 0
    ensures sim == SimOf(p, s, baseH, baseE, baseS)
    ensures TotalsOf(sim.rows)
            == Totals(sim.resumen.totalRotos, sim.resumen.totalPerm, sim.resumen.totalPollos, sim.resumen.ingresoTotal)
  {
    var rngH := new Rng(baseH + s);
    var rngE := new Rng(baseE + s);
    var rngS := new Rng(baseS + s);
    ghost var tH, tE, tS := TrialSeed(baseH, s), TrialSeed(baseE, s), TrialSeed(baseS, s);
    var totals := Totals(0, 0, 0, 0.0);
    var rows := [];
    var d := 1;
    while d <= p.nmd
      invariant 1 <= d <= p.nmd + 1
      invariant Tally(rngH.t, rngE.t, rngS.t, totals) == After(p, Draw, tH, tE, tS, d - 1)
      invariant rows == Rows(p, Draw, tH, tE, tS, d - 1)
      invariant totals == TotalsOf(rows)
    {
      AfterStep(p, Draw, tH, tE, tS, d - 1);
      var row;
      totals, row := PlayDay(p, rngH, rngE, rngS, After(p, Draw, tH, tE, tS, d - 1), rows, d, totals);
      rows := rows + [row];
      d := d + 1;
    }
    sim := Summarize(p, s, baseH, baseE, baseS, Tally(rngH.t, rngE.t, rngS.t, totals), rows);
  }

  /** All trials: none when the form is not ready, otherwise trial `s` for
      every `s` below the trial count. */
  method Simulate(p: Params, simCount: nat, epoch: uint32) returns (sims: seq<Sim>)
    ensures !Ready(p, simCount) ==> sims == []
    ensures Ready(p, simCount) ==> sims == Trials(p, simCount, epoch)
  {
    if !Ready(p, simCount) {
      return [];
    }
    var baseH := BaseHuevos(epoch);
    var baseE := BaseEvento(epoch);
    var baseS := BaseSobrev(epoch);
    sims := [];
    var s := 0;
    while s < simCount
      invariant 0 <= s <= simCount
      invariant sims == Trials(p, s, epoch)
    {
      var sim := PlayTrial(p, s, baseH, baseE, baseS);
      TrialsSnoc(p, s, epoch);
      sims := sims + [sim];
      s := s + 1;
    }
  }

  // ---------------------------------------------------------------------
  // Averages over the trials

  function RotosColumn(sims: seq<Sim>): seq<real> {
    seq(|sims|, i requires 0 <= i < |sims| => sims[i].resumen.totalRotos as real)
  }

  function PermColumn(sims: seq<Sim>): seq<real> {
    seq(|sims|, i requires 0 <= i < |sims| => sims[i].resumen.totalPerm as real)
  }

  function PollosColumn(sims: seq<Sim>): seq<real> {
    seq(|sims|, i requires 0 <= i < |sims| => sims[i].resumen.totalPollos as real)
  }

  function ITColumn(sims: seq<Sim>): seq<real> {
    seq(|sims|, i requires 0 <= i < |sims| => sims[i].resumen.ingresoTotal)
  }

  function INColumn(sims: seq<Sim>): seq<real> {
    seq(|sims|, i requires 0 <= i < |sims| => sims[i].resumen.ingresoNeto)
  }

  function IPDColumn(sims: seq<Sim>): seq<real> {
    seq(|sims|, i requires 0 <= i < |sims| => sims[i].resumen.ingresoPromedioDiario)
  }

  /** `agregados`: `null` without trials, otherwise the means of the six
      summary fields. */
  method ComputeAgregados(sims: seq<Sim>) returns (agg: Option<Agregados>)
    ensures sims == [] <==> agg == None
    ensures sims != [] ==> agg == Some(Agregados(Stats.Mean(RotosColumn(sims)), Stats.Mean(PermColumn(sims)),
                                                 Stats.Mean(PollosColumn(sims)), Stats.Mean(ITColumn(sims)),
                                                 Stats.Mean(INColumn(sims)), Stats.Mean(IPDColumn(sims)), |sims|))
  {
    if |sims| == 0 {
      return None;
    }
    var sumR, sumP, sumC, sumIT, sumIN, sumIPD := 0.0, 0.0, 0.0, 0.0, 0.0, 0.0;
    var i := 0;
    while i < |sims|
      invariant 0 <= i <= |sims|
      invariant sumR == Stats.Sum(RotosColumn(sims)[..i])
      invariant sumP == Stats.Sum(PermColumn(sims)[..i])
      invariant sumC == Stats.Sum(PollosColumn(sims)[..i])
      invariant sumIT == Stats.Sum(ITColumn(sims)[..i])
      invariant sumIN == Stats.Sum(INColumn(sims)[..i])
      invariant sumIPD == Stats.Sum(IPDColumn(sims)[..i])
    {
      Stats.SumSnoc(RotosColumn(sims), i);
      Stats.SumSnoc(PermColumn(sims), i);
      Stats.SumSnoc(PollosColumn(sims), i);
      Stats.SumSnoc(ITColumn(sims), i);
      Stats.SumSnoc(INColumn(sims), i);
      Stats.SumSnoc(IPDColumn(sims), i);
      sumR := sumR + sims[i].resumen.totalRotos as real;
      sumP := sumP + sims[i].resumen.totalPerm as real;
      sumC := sumC + sims[i].resumen.totalPollos as real;
      sumIT := sumIT + sims[i].resumen.ingresoTotal;
      sumIN := sumIN + sims[i].resumen.ingresoNeto;
      sumIPD := sumIPD + sims[i].resumen.ingresoPromedioDiario;
      i := i + 1;
    }
    assert RotosColumn(sims)[..i] == RotosColumn(sims);
    assert PermColumn(sims)[..i] == PermColumn(sims);
    assert PollosColumn(sims)[..i] == PollosColumn(sims);
    assert ITColumn(sims)[..i] == ITColumn(sims);
    assert INColumn(sims)[..i] == INColumn(sims);
    assert IPDColumn(sims)[..i] == IPDColumn(sims);
    var S := |sims| as real;
    agg := Some(Agregados(sumR / S, sumP / S, sumC / S, sumIT / S, sumIN / S, sumIPD / S, |sims|));
  }

  /** Every trial of a run keeps the promises of its summary. */
  lemma TrialOk(p: Params, simCount: nat, epoch: uint32, s: nat)
    requires p.nmd > 0 && s < simCount
    ensures SummaryOk(p, Trials(p, simCount, epoch)[s].resumen)
  {
    SummaryFacts(p, s, BaseHuevos(epoch), BaseEvento(epoch), BaseSobrev(epoch));
  }

  /** The mean counts over trials that keep within four eggs a day also do. */
  lemma MeanCounts(p: Params, sims: seq<Sim>)
    requires sims != []
    requires forall i :: 0 <= i < |sims| ==> CountsOk(p, sims[i].resumen)
    ensures 0.0 <= Stats.Mean(RotosColumn(sims)) <= 4.0 * (p.nmd as real)
    ensures 0.0 <= Stats.Mean(PermColumn(sims)) <= 4.0 * (p.nmd as real)
    ensures 0.0 <= Stats.Mean(PollosColumn(sims)) <= 4.0 * (p.nmd as real)
  {
    var bound := 4.0 * (p.nmd as real);
    forall i | 0 <= i < |sims|
      ensures 0.0 <= RotosColumn(sims)[i] <= bound
      ensures 0.0 <= PermColumn(sims)[i] <= bound
      ensures 0.0 <= PollosColumn(sims)[i] <= bound
    {
      var r := sims[i].resumen;
      assert (r.totalRotos as real) + (r.totalPerm as real) + (r.totalPollos as real) <= bound;
    }
    Stats.MeanBounds(RotosColumn(sims), 0.0, bound);
    Stats.MeanBounds(PermColumn(sims), 0.0, bound);
    Stats.MeanBounds(PollosColumn(sims), 0.0, bound);
  }

  /** The mean net income is the mean income less the fixed cost. */
  lemma MeanNet(p: Params, sims: seq<Sim>)
    requires sims != []
    requires forall i :: 0 <= i < |sims| ==> IncomeOk(p, sims[i].resumen)
    ensures Stats.Mean(INColumn(sims)) == Stats.Mean(ITColumn(sims)) - CF
  {
    Stats.MeanAffine(ITColumn(sims), -CF, 1.0, INColumn(sims));
  }

  /** The mean daily income is the mean income over the days. */
  lemma MeanDaily(p: Params, sims: seq<Sim>)
    requires sims != [] && p.nmd > 0
    requires forall i :: 0 <= i < |sims| ==> DailyOk(p, sims[i].resumen)
    ensures Stats.Mean(IPDColumn(sims)) * (p.nmd as real) == Stats.Mean(ITColumn(sims))
  {
    Stats.MeanScaled(ITColumn(sims), IPDColumn(sims), p.nmd as real);
  }

  /** Over the trials of one run: the mean broken eggs, eggs sold and chicks
      sold stay within four a day, the mean net income is the mean income
      less the fixed cost, and the mean daily income times the days is the
      mean income. */
  lemma AgregadosFacts(p: Params, simCount: nat, epoch: uint32, sims: seq<Sim>)
    requires Ready(p, simCount) && sims == Trials(p, simCount, epoch)
    ensures 0.0 <= Stats.Mean(RotosColumn(sims)) <= 4.0 * (p.nmd as real)
    ensures 0.0 <= Stats.Mean(PermColumn(sims)) <= 4.0 * (p.nmd as real)
    ensures 0.0 <= Stats.Mean(PollosColumn(sims)) <= 4.0 * (p.nmd as real)
    ensures Stats.Mean(INColumn(sims)) == Stats.Mean(ITColumn(sims)) - CF
    ensures Stats.Mean(IPDColumn(sims)) * (p.nmd as real) == Stats.Mean(ITColumn(sims))
  {
    forall s | 0 <= s < simCount
      ensures SummaryOk(p, sims[s].resumen)
    {
      TrialOk(p, simCount, epoch, s);
    }
    MeanCounts(p, sims);
    MeanNet(p, sims);
    MeanDaily(p, sims);
  }
}
