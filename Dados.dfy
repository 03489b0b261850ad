/** The dice game (`src/pages/ejercicios/Dados.jsx`): in every round a player
    throws two dice, each drawn from its own generator; the house collects the
    price of the game unless the faces add up to 7, in which case it pays the
    player a prize instead. Several trials are run from seeds derived from the
    epoch and averaged. */
module Dados {
  import opened JsInt
  import opened Mulberry32
  import opened Seeding
  import opened Options
  import opened Ledger
  import Stats

  const SEED_D1_BASE: nat := 1234
  const SEED_D2_BASE: nat := 9876

  /** The parsed form: number of rounds (NMJ), price of a round (PUJ) and the
      prize paid when the sum is 7 (CUS7). */
  datatype Params = Params(nmj: nat, puj: real, cus7: real)

  /** The page's `ready` check, with the trial count limited to 1..30. */
  predicate Ready(p: Params, simCount: nat) {
    p.nmj > 0 && p.puj >= 0.0 && p.cus7 >= 0.0 && 0 < simCount <= 30
  }

  /** `dadoPorU`: `Math.round(1 + 5u)` clamped to 1..6. `Math.round` rounds
      halves up, so the face changes at the draws where `1 + 5u` is a half:
      the face is fixed by the band of [0.1, 0.9] split at steps of 0.2 that
      holds `u` (`RoundedFace` is the formula as written). */
  function DadoPorU(u: real): (face: int)
    ensures 1 <= face <= 6
  {
    if u < 0.1 then 1 else if u < 0.3 then 2 else if u < 0.5 then 3
    else if u < 0.7 then 4 else if u < 0.9 then 5 else 6
  }

  /** `Math.round(1 + 5 * u)` clamped to 1..6, as the page writes it. */
  function RoundedFace(u: real): int {
    var v := (1.0 + 5.0 * u + 0.5).Floor;
    if v < 1 then 1 else if v > 6 then 6 else v
  }

  /** The bands are the rounding formula, for every real `u`. */
  lemma DadoPorUIsRounding(u: real)
    ensures DadoPorU(u) == RoundedFace(u)
  {
    var x := 1.5 + 5.0 * u;
    if u < 0.1 { assert x < 2.0; }
    else if u < 0.3 { assert 2.0 <= x < 3.0; }
    else if u < 0.5 { assert 3.0 <= x < 4.0; }
    else if u < 0.7 { assert 4.0 <= x < 5.0; }
    else if u < 0.9 { assert 5.0 <= x < 6.0; }
    else { assert 6.0 <= x; }
  }

  /** For a draw in [0, 1) the clamp never fires: the face is the rounded
      value itself. */
  lemma DadoPorUUnclamped(u: real)
    requires 0.0 <= u < 1.0
    ensures DadoPorU(u) == (1.5 + 5.0 * u).Floor
  {
    DadoPorUIsRounding(u);
    var x := 1.5 + 5.0 * u;
    assert 1.5 <= x < 6.5;
    assert 1 <= x.Floor <= 6;
  }

  /** The running state of one trial: both generators, the house gain so far
      (`gananciaCasa`) and the rounds the house won so far (`ganadosCasa`). */
  datatype Tally = Tally(t1: uint32, t2: uint32, gananciaCasa: real, ganadosCasa: nat)

  /** One row of the round table. */
  datatype Row = Row(cj: nat, gncAcum: real, r1: real, r2: real, d1: int, d2: int, suma: int, njgc: nat)

  datatype Resumen = Resumen(gnc: real, njgc: nat, pjc: real, nmj: nat, puj: real, cus7: real,
                             seedD1: int, seedD2: int)

  datatype Sim = Sim(simIndex: nat, resumen: Resumen, rows: seq<Row>)

  datatype Agregados = Agregados(promGNC: real, promNJGC: real, promPJC: real, nmj: nat, s: nat)

  /** Round `cj`: one draw from each generator, two faces, and the house's
      gain or loss. */
  function Round(p: Params, draw: uint32 -> real, st: Tally, cj: nat): Outcome<Tally, Row>
  {
    var r1 := draw(st.t1);
    var r2 := draw(st.t2);
    var d1 := DadoPorU(r1);
    var d2 := DadoPorU(r2);
    var suma := d1 + d2;
    var gain := if suma == 7 then st.gananciaCasa + (p.puj - p.cus7) else st.gananciaCasa + p.puj;
    var won := if suma == 7 then st.ganadosCasa else st.ganadosCasa + 1;
    Outcome(Tally(Advance(st.t1), Advance(st.t2), gain, won), Row(cj, gain, r1, r2, d1, d2, suma, won))
  }

  /** The loop body as a function of the state and the round. */
  function RoundOf(p: Params, draw: uint32 -> real): (Tally, nat) -> Outcome<Tally, Row> {
    (st: Tally, cj: nat) => Round(p, draw, st, cj)
  }

  /** The state after `n` rounds from fresh generators in states `t1`, `t2`. */
  function After(p: Params, draw: uint32 -> real, t1: uint32, t2: uint32, n: nat): Tally
  {
    Run(RoundOf(p, draw), Tally(t1, t2, 0.0, 0), n)
  }

  /** The rows of the first `n` rounds. */
  function Rows(p: Params, draw: uint32 -> real, t1: uint32, t2: uint32, n: nat): seq<Row>
  {
    Table(RoundOf(p, draw), Tally(t1, t2, 0.0, 0), n)
  }

  /** The summary of trial `s` once its rounds are played: the final gain,
      the rounds won, their percentage (`PJC`) and the seeds of the two
      generators. */
  function Summarize(p: Params, s: nat, base1: int, base2: int, fin: Tally, rows: seq<Row>): Sim
    requires p.nmj > 0
  {
    var pjc := (fin.ganadosCasa as real / p.nmj as real) * 100.0;
    Sim(s, Resumen(fin.gananciaCasa, fin.ganadosCasa, pjc, p.nmj, p.puj, p.cus7, base1 + s, base2 + s), rows)
  }

  /** Trial `s` run from the two bases (`rng1 = mulberry32(base1 + s)`,
      `rng2 = mulberry32(base2 + s)`), with its summary. */
  function SimOf(p: Params, s: nat, base1: int, base2: int): Sim
    requires p.nmj > 0
  {
    var t1 := TrialSeed(base1, s);
    var t2 := TrialSeed(base2, s);
    Summarize(p, s, base1, base2, After(p, Draw, t1, t2, p.nmj), Rows(p, Draw, t1, t2, p.nmj))
  }

  function Base1(epoch: uint32): int { AddedBase(SEED_D1_BASE, epoch) }
  function Base2(epoch: uint32): int { XoredBase(SEED_D2_BASE, epoch) }

  /** Trial `s` for a given epoch. The trial count is not an argument: a
      trial's rows do not depend on how many trials are run. */
  function TrialAt(p: Params, epoch: uint32, s: nat): Sim
    requires p.nmj > 0
  {
    SimOf(p, s, Base1(epoch), Base2(epoch))
  }

  function Trials(p: Params, simCount: nat, epoch: uint32): seq<Sim>
    requires p.nmj > 0
  {
    seq(simCount, s requires 0 <= s < simCount => TrialAt(p, epoch, s))
  }

  // ---------------------------------------------------------------------
  // Properties of one trial

  /** The house's gain over `rounds` rounds of which it won `won`: the
      price of every round, less the prize of every round it lost. */
  function HouseGain(p: Params, rounds: real, won: real): real {
    rounds * p.puj - (rounds - won) * p.cus7
  }

  /** The gain is affine in the rounds won: each won round is worth the prize. */
  lemma HouseGainAffine(p: Params, rounds: real, won: real)
    ensures HouseGain(p, rounds, won) == rounds * (p.puj - p.cus7) + p.cus7 * won
  {
    assert (rounds - won) * p.cus7 == rounds * p.cus7 - won * p.cus7;
  }

  /** One more round adds its price, less the prize when the house loses it. */
  lemma HouseGainStep(p: Params, rounds: real, won: real)
    ensures HouseGain(p, rounds + 1.0, won) == HouseGain(p, rounds, won) + (p.puj - p.cus7)
    ensures HouseGain(p, rounds + 1.0, won + 1.0) == HouseGain(p, rounds, won) + p.puj
  {
    assert (rounds + 1.0) * p.puj == rounds * p.puj + p.puj;
    assert (rounds + 1.0 - won) * p.cus7 == (rounds - won) * p.cus7 + p.cus7;
  }

  /** The house's gain is the price of every round minus the prize of every
      round it lost, and it wins at most every round. */
  lemma {:induction false} GainClosedForm(p: Params, draw: uint32 -> real, t1: uint32, t2: uint32, n: nat)
    ensures After(p, draw, t1, t2, n).ganadosCasa <= n
    ensures After(p, draw, t1, t2, n).gananciaCasa
            == HouseGain(p, n as real, After(p, draw, t1, t2, n).ganadosCasa as real)
  {
    if n > 0 {
      GainClosedForm(p, draw, t1, t2, n - 1);
      var prev := After(p, draw, t1, t2, n - 1);
      HouseGainStep(p, (n - 1) as real, prev.ganadosCasa as real);
    }
  }

  /** Each generator is called exactly once per round. */
  lemma {:induction false} OneDrawPerRound(p: Params, draw: uint32 -> real, t1: uint32, t2: uint32, n: nat)
    ensures After(p, draw, t1, t2, n).t1 == StateAfter(t1, n)
    ensures After(p, draw, t1, t2, n).t2 == StateAfter(t2, n)
  {
    if n > 0 {
      OneDrawPerRound(p, draw, t1, t2, n - 1);
    }
  }

  /** One round, on its own: the row repeats the new totals, its sum is the
      sum of two faces, and the win count grows exactly when the sum is not 7. */
  lemma RoundFacts(p: Params, draw: uint32 -> real, st: Tally, cj: nat)
    ensures var Outcome(st', r) := Round(p, draw, st, cj);
      r.cj == cj && 2 <= r.suma <= 12 &&
      r.gncAcum == st'.gananciaCasa && r.njgc == st'.ganadosCasa &&
      r.njgc == (if r.suma == 7 then 0 else 1) + st.ganadosCasa
  {
  }

  /** Row `r` describes round `i + 1`: its index, the totals after that
      round, a sum of two faces, and the house wins counted so far (never
      more than the rounds played), grown by one exactly when the sum is not 7. */
  ghost predicate DescribesRound(p: Params, draw: uint32 -> real, t1: uint32, t2: uint32, r: Row, i: nat) {
    r.cj == i + 1 && 2 <= r.suma <= 12 && r.njgc <= r.cj &&
    r.gncAcum == After(p, draw, t1, t2, i + 1).gananciaCasa &&
    r.njgc == After(p, draw, t1, t2, i + 1).ganadosCasa &&
    r.njgc == (if r.suma == 7 then 0 else 1) + After(p, draw, t1, t2, i).ganadosCasa
  }

  /** Every row of the table describes its round. */
  lemma RowsShape(p: Params, draw: uint32 -> real, t1: uint32, t2: uint32, n: nat)
    ensures |Rows(p, draw, t1, t2, n)| == n
    ensures forall i :: 0 <= i < n ==> DescribesRound(p, draw, t1, t2, Rows(p, draw, t1, t2, n)[i], i)
  {
    TableLength(RoundOf(p, draw), Tally(t1, t2, 0.0, 0), n);
    forall i | 0 <= i < n
      ensures DescribesRound(p, draw, t1, t2, Rows(p, draw, t1, t2, n)[i], i)
    {
      TableAt(RoundOf(p, draw), Tally(t1, t2, 0.0, 0), n, i);
      RoundFacts(p, draw, After(p, draw, t1, t2, i), i + 1);
      GainClosedForm(p, draw, t1, t2, i + 1);
    }
  }

  /** The win count shown in the rows never decreases. */
  lemma {:induction false} WinsMonotone(p: Params, draw: uint32 -> real, t1: uint32, t2: uint32, i: nat, j: nat)
    requires i <= j
    ensures After(p, draw, t1, t2, i).ganadosCasa <= After(p, draw, t1, t2, j).ganadosCasa
  {
    if i < j {
      WinsMonotone(p, draw, t1, t2, i, j - 1);
    }
  }

  /** The summary of a trial: `NJGC` rounds won out of `NMJ`, the gain in
      closed form, `PJC` the percentage of rounds won, and the seeds
      `base1 + s` and `base2 + s` of its two generators. */
  lemma SummaryFacts(p: Params, s: nat, base1: int, base2: int)
    requires p.nmj > 0
    ensures var r := SimOf(p, s, base1, base2).resumen;
      r.nmj == p.nmj && r.njgc <= r.nmj &&
      r.gnc == HouseGain(p, r.nmj as real, r.njgc as real) &&
      r.pjc == (r.njgc as real / r.nmj as real) * 100.0 &&
      0.0 <= r.pjc <= 100.0 &&
      r.seedD1 == base1 + s && r.seedD2 == base2 + s
    ensures |SimOf(p, s, base1, base2).rows| == p.nmj
  {
    var t1 := TrialSeed(base1, s);
    var t2 := TrialSeed(base2, s);
    var fin := After(p, Draw, t1, t2, p.nmj);
    GainClosedForm(p, Draw, t1, t2, p.nmj);
    TableLength(RoundOf(p, Draw), Tally(t1, t2, 0.0, 0), p.nmj);
    Percentage(fin.ganadosCasa, p.nmj);
  }

  /** `(w / n) * 100` is a percentage when `w <= n`. */
  lemma Percentage(w: nat, n: nat)
    requires 0 < n && w <= n
    ensures 0.0 <= (w as real / n as real) * 100.0 <= 100.0
  {
    var q := w as real / n as real;
    assert q * (n as real) == w as real;
    assert q <= 1.0;
  }

  // ---------------------------------------------------------------------
  // The page's computations

  /** Round `cj` of the loop: one call on each generator, the faces, and the
      updated gain and win count. */
  method PlayRound(p: Params, rng1: Rng, rng2: Rng, gananciaCasa: real, ganadosCasa: nat, cj: nat)
      returns (gain: real, won: nat, row: Row)
    requires rng1 != rng2
    modifies rng1, rng2
    ensures Outcome(Tally(rng1.t, rng2.t, gain, won), row)
            == Round(p, Draw, Tally(old(rng1.t), old(rng2.t), gananciaCasa, ganadosCasa), cj)
  {
    var r1 := rng1.Next();
    var r2 := rng2.Next();
    var d1 := DadoPorU(r1);
    var d2 := DadoPorU(r2);
    var suma := d1 + d2;
    if suma == 7 {
      gain, won := gananciaCasa + (p.puj - p.cus7), ganadosCasa;
    } else {
      gain, won := gananciaCasa + p.puj, ganadosCasa + 1;
    }
    row := Row(cj, gain, r1, r2, d1, d2, suma, won);
  }

  /** The round loop of one trial, with its two generators. */
  method PlayTrial(p: Params, s: nat, base1: int, base2: int) returns (sim: Sim)
    requires p.nmj > 0
    ensures sim == SimOf(p, s, base1, base2)
  {
    var rng1 := new Rng(base1 + s);
    var rng2 := new Rng(base2 + s);
    ghost var t1, t2 := TrialSeed(base1, s), TrialSeed(base2, s);
    var gananciaCasa := 0.0;
    var ganadosCasa := 0;
    var rows := [];
    var cj := 1;
    while cj <= p.nmj
      invariant 1 <= cj <= p.nmj + 1
      invariant Tally(rng1.t, rng2.t, gananciaCasa, ganadosCasa) == After(p, Draw, t1, t2, cj - 1)
      invariant rows == Rows(p, Draw, t1, t2, cj - 1)
    {
      var row;
      gananciaCasa, ganadosCasa, row := PlayRound(p, rng1, rng2, gananciaCasa, ganadosCasa, cj);
      rows := rows + [row];
      cj := cj + 1;
    }
    sim := Summarize(p, s, base1, base2, Tally(rng1.t, rng2.t, gananciaCasa, ganadosCasa), rows);
  }

  /** All trials: none when the form is not ready, otherwise trial `s` for
      every `s` below the trial count, each with fresh generators. */
  method Simulate(p: Params, simCount: nat, epoch: uint32) returns (sims: seq<Sim>)
    ensures !Ready(p, simCount) ==> sims == []
    ensures Ready(p, simCount) ==> sims == Trials(p, simCount, epoch)
  {
    if !Ready(p, simCount) {
      return [];
    }
    var base1 := Base1(epoch);
    var base2 := Base2(epoch);
    sims := [];
    var s := 0;
    while s < simCount
      invariant 0 <= s <= simCount
      invariant sims == Trials(p, s, epoch)
    {
      var sim := PlayTrial(p, s, base1, base2);
      sims := sims + [sim];
      s := s + 1;
    }
  }

  // ---------------------------------------------------------------------
  // Averages over the trials

  function GncColumn(sims: seq<Sim>): seq<real> {
    seq(|sims|, i requires 0 <= i < |sims| => sims[i].resumen.gnc)
  }

  function NjgcColumn(sims: seq<Sim>): seq<real> {
    seq(|sims|, i requires 0 <= i < |sims| => sims[i].resumen.njgc as real)
  }

  function PjcColumn(sims: seq<Sim>): seq<real> {
    seq(|sims|, i requires 0 <= i < |sims| => sims[i].resumen.pjc)
  }

  /** `agregados`: `null` without trials, otherwise the mean gain, mean wins
      and mean win percentage, with the round count of the first trial. */
  method ComputeAgregados(sims: seq<Sim>) returns (agg: Option<Agregados>)
    ensures sims == [] <==> agg == None
    ensures sims != [] ==> agg == Some(Agregados(Stats.Mean(GncColumn(sims)), Stats.Mean(NjgcColumn(sims)),
                                                 Stats.Mean(PjcColumn(sims)), sims[0].resumen.nmj, |sims|))
  {
    if |sims| == 0 {
      return None;
    }
    var sumGNC, sumNJGC, sumPJC := 0.0, 0.0, 0.0;
    var i := 0;
    while i < |sims|
      invariant 0 <= i <= |sims|
      invariant sumGNC == Stats.Sum(GncColumn(sims)[..i])
      invariant sumNJGC == Stats.Sum(NjgcColumn(sims)[..i])
      invariant sumPJC == Stats.Sum(PjcColumn(sims)[..i])
    {
      Stats.SumSnoc(GncColumn(sims), i);
      Stats.SumSnoc(NjgcColumn(sims), i);
      Stats.SumSnoc(PjcColumn(sims), i);
      sumGNC := sumGNC + sims[i].resumen.gnc;
      sumNJGC := sumNJGC + sims[i].resumen.njgc as real;
      sumPJC := sumPJC + sims[i].resumen.pjc;
      i := i + 1;
    }
    assert GncColumn(sims)[..i] == GncColumn(sims);
    assert NjgcColumn(sims)[..i] == NjgcColumn(sims);
    assert PjcColumn(sims)[..i] == PjcColumn(sims);
    var S := |sims| as real;
    agg := Some(Agregados(sumGNC / S, sumNJGC / S, sumPJC / S, sims[0].resumen.nmj, |sims|));
  }

  /** What the summary of one trial promises, with the round count `NMJ`. */
  ghost predicate SummaryOk(p: Params, r: Resumen) {
    0.0 <= r.pjc <= 100.0 && 0.0 <= r.njgc as real <= p.nmj as real &&
    r.gnc == HouseGain(p, p.nmj as real, r.njgc as real)
  }

  lemma TrialFacts(p: Params, s: nat, base1: int, base2: int)
    requires p.nmj > 0
    ensures SummaryOk(p, SimOf(p, s, base1, base2).resumen)
  {
    SummaryFacts(p, s, base1, base2);
  }

  /** Averages over any trials whose summaries keep their promises. */
  lemma MeansOf(p: Params, sims: seq<Sim>)
    requires sims != []
    requires forall i :: 0 <= i < |sims| ==> SummaryOk(p, sims[i].resumen)
    ensures 0.0 <= Stats.Mean(PjcColumn(sims)) <= 100.0
    ensures 0.0 <= Stats.Mean(NjgcColumn(sims)) <= p.nmj as real
    ensures Stats.Mean(GncColumn(sims)) == HouseGain(p, p.nmj as real, Stats.Mean(NjgcColumn(sims)))
  {
    var n := p.nmj as real;
    var a := n * (p.puj - p.cus7);
    forall i | 0 <= i < |sims|
      ensures GncColumn(sims)[i] == a + p.cus7 * NjgcColumn(sims)[i]
    {
      HouseGainAffine(p, n, NjgcColumn(sims)[i]);
    }
    Stats.MeanBounds(PjcColumn(sims), 0.0, 100.0);
    Stats.MeanBounds(NjgcColumn(sims), 0.0, n);
    Stats.MeanAffine(NjgcColumn(sims), a, p.cus7, GncColumn(sims));
    HouseGainAffine(p, n, Stats.Mean(NjgcColumn(sims)));
  }

  /** Over the trials of one run the averages keep the per-trial facts: the
      mean win percentage is a percentage, the mean wins at most the round
      count, and the mean gain is the gain formula applied to the mean wins. */
  lemma AgregadosFacts(p: Params, simCount: nat, epoch: uint32)
    requires Ready(p, simCount)
    ensures var sims := Trials(p, simCount, epoch);
      0.0 <= Stats.Mean(PjcColumn(sims)) <= 100.0 &&
      0.0 <= Stats.Mean(NjgcColumn(sims)) <= p.nmj as real &&
      Stats.Mean(GncColumn(sims)) == HouseGain(p, p.nmj as real, Stats.Mean(NjgcColumn(sims)))
  {
    var sims := Trials(p, simCount, epoch);
    forall s | 0 <= s < simCount
      ensures SummaryOk(p, sims[s].resumen)
    {
      TrialFacts(p, s, Base1(epoch), Base2(epoch));
    }
    MeansOf(p, sims);
  }
}
