# Randomness exercises: a Dafny model

The web app teaches pseudo-random number generation and simulation. Most of
its pages only display text. This project models the pages that compute:

- **Congruential generators** (`Lineal`, `Multiplicativo`). Each page derives
  a multiplier and a modulus from its form, then shows `m + 1` or `D + 1`
  rows chained through `prev`. The shared row loop is in `Congruential`.
- **mulberry32** (`Mulberry32`). This is the seeded generator that every
  exercise page copies. The class `Rng` is one closure, and its captured
  state `t` is the field.
- **Trial seeds** (`Seeding`). Each page mixes the seed epoch into a
  per-generator base with `| 0`, `^` and `<< 1`. Trial `s` then seeds its
  generator with `base + s`.
- **Four stochastic exercises**:
  - `Dados`: a dice game.
  - `Tienda`: a shop with hourly customers.
  - `Gallina`: a hen whose eggs break, hatch or are sold.
  - `Azucar`: a periodic-review sugar warehouse.

  Each one runs several trials. A trial plays its periods, one row per
  period, and then summarises them. The `agregados` block averages the
  summaries (`Stats`).
- **Two deposits** (`DepositoFijo`, `DepositoVariable`). Both compound
  yearly, and share the loop in `Compounding`. The variable deposit picks
  its rate from the initial capital.

## How the model is built

Every loop of the pages is a Dafny `method` with its loop invariants. Each
method is proved equal to a specification function, and the lemmas state
the properties of those functions:

- the row loop: `Congruential.Generate` against `Congruential.Table`;
- the compounding loop: `Compounding.Compound` against `Schedule`/`Balance`;
- the trial loops: `PlayTrial` against `SimOf`;
- the aggregates: `ComputeAgregados` against the `Stats.Mean` of each column.

Each generator is an `Rng` object, and the trial methods call `Next` on it.
The specifications see a generator as its 32-bit state. They take the draw
function `draw: uint32 -> real` as a parameter, and the methods use it as
`Mulberry32.Draw`. The day, hour and round tables of the exercises are
all written over a one-period function with `Ledger.Run`/`Ledger.Table`:
`Dados.Round`, `Tienda.Hour`, `Gallina.Day` and `Azucar.Day`.

Several JavaScript operations are written out explicitly:

- `%` on integers becomes `JsInt.JsRem`. It truncates toward zero, so it is
  negative for a negative dividend, unlike Dafny's `%`.
- `x >>> 0` and `x | 0` become `ToUint32` and `ToInt32`.
- `Math.imul` is a `bv32` product.
- The form fields of the generator pages are read as `Number(v)` reads
  them. A field is empty, a finite number or not a number (`FormInput.Field`),
  and `toInt` truncates toward zero.

The seed epoch (built from `Math.random()` and `Date.now()`) is a parameter.
The sugar warehouse's daily demand is a parameter too: `demandOf` maps the
draw to the demand and is only required to be non-negative.

## Model

| member | source | states |
|---|---|---|
| FormInput.Trunc | src/pages/Lineal.jsx:11-14 | `Math.trunc`: for non-negative input, the largest integer not above it; for negative input, the smallest integer not below it |
| FormInput.ToInt | src/pages/Lineal.jsx:11-14 | `toInt`: an empty field reads as 0 and a non-finite one as the default |
| FormInput.ToIntOfInt | src/pages/Lineal.jsx:11-14 | an integer value read back with `toInt` is itself, whatever the default |
| FormInput.Max | src/pages/Lineal.jsx:29 | `Math.max` is one of its arguments and at least both |
| JsInt.JsRem | src/pages/Lineal.jsx:47 | JavaScript's `%` for a positive modulus: in [0, m) for a non-negative dividend, in (-m, 0] for a negative one, and dividend = truncated quotient * m + remainder |
| JsInt.ToInt32 | src/pages/ejercicios/Dados.jsx:72 | the signed 32-bit coercion lies in [-2^31, 2^31) and keeps the 32-bit pattern of `x` |
| JsInt.ToUint32OfInt32Plus | src/pages/ejercicios/Dados.jsx:72-78 | adding `s` after the signed coercion gives the same unsigned pattern as adding it before |
| Lineal.Derive | src/pages/Lineal.jsx:24-34 | parameters exist exactly when `X0`, `c` and `P` are filled in and the multiplier or `K` is; the modulus is then at least 2 |
| Lineal.DeriveFacts | src/pages/Lineal.jsx:28-30 | the multiplier is the given one, or `1 + 4K` (which is 1 modulo 4) when none is given; the modulus is `toInt(P, 2)` raised to 2 |
| Lineal.GenerateRows | src/pages/Lineal.jsx:36-53 | the rows block computes exactly the specified table, including the re-read of `a` and `m` with `toInt` and the second `Math.max(2, …)` |
| Lineal.RowsShape | src/pages/Lineal.jsx:37-50 | no rows until the form is ready, then `m + 1` rows numbered from 1; the first starts from `X0`, each later one from the previous row's value; every `xi` is `(a * xim1 + c)` less a truncated multiple of `m`, of magnitude below `m` |
| Lineal.RowsInRange | src/pages/Lineal.jsx:47-48 | with non-negative `a`, `X0` and `c`, every `xi` lies in [0, m) and every `ri` in [0, 1] |
| Lineal.RowsRepeat | src/pages/Lineal.jsx:45-46 | with non-negative `a`, `X0` and `c`, some value appears twice among the `m + 1` rows (pigeonhole) |
| Lineal.ExtraRowNotFirstValue | src/pages/Lineal.jsx:143-148 | the tooltip says the extra row repeats the first value, but for `X0 = 1`, `c = 0`, `P = 4`, `a = 2` the last row shows 0 while `X0` is 1 and the first value is 2 |
| Congruential.Generate | src/pages/Lineal.jsx:43-52 | the loop over `i = 1..total`, carrying `prev`, builds exactly `Table` |
| Congruential.TableRow | src/pages/Lineal.jsx:46-50 | a table of `n` rows: row `j` has index `j + 1`, chains through the previous `xi`, and its `xi` is the truncated remainder |
| Congruential.ValuesInRange | src/pages/Lineal.jsx:47 | with non-negative `a`, `c` and start, every value lies in [0, m) |
| Congruential.RowsInRange | src/pages/Lineal.jsx:47-48 | with non-negative inputs and `m > 1`, `xi` lies in [0, m) and `ri = xi / (m - 1)` in [0, 1] |
| Congruential.ScaledInUnit | src/pages/Lineal.jsx:48 | `x / (m - 1)` lies in [0, 1] for `x` in [0, m) |
| Congruential.Pigeonhole | src/pages/Lineal.jsx:45 | more than `m` values in [0, m) contain two equal ones |
| Congruential.TableRepeats | src/pages/Lineal.jsx:45 | `m + 1` rows with non-negative inputs show a repeated value |
| Congruential.RowValues | src/pages/Lineal.jsx:49-50 | row `j` holds the values after `j` and `j + 1` steps |
| Congruential.LastRowNotFirstValue | src/pages/Lineal.jsx:143-148 | with `a = 2`, `c = 0`, `m = 4`, `X0 = 1` the `m + 1`-th row neither shows `X0` nor the first row's value |
| Congruential.ZeroStays | src/pages/Multiplicativo.jsx:60 | without an increment, a value of 0 stays 0 |
| Congruential.OddStaysOdd | src/pages/Multiplicativo.jsx:60 | an odd multiplier, an even modulus and an odd start keep every value odd |
| Congruential.EvenStaysEven | src/pages/Multiplicativo.jsx:60 | an even modulus and an even start keep every value even |
| Multiplicativo.Pow2 | src/pages/Multiplicativo.jsx:44 | `2 ** g` is at least 1 |
| Multiplicativo.Pow2Monotone | src/pages/Multiplicativo.jsx:44 | a larger exponent never gives a smaller power of two |
| Multiplicativo.CeilLog2 | src/pages/Multiplicativo.jsx:42 | `ceil(log2 D)` is the least `n` with `D <= 2^n` |
| Multiplicativo.Pow2Double | src/pages/Multiplicativo.jsx:44 | `2 ** g` is a finite double exactly when `g <= 1023`, and then it is `2^g` exactly; beyond, it is `Infinity` |
| Multiplicativo.Modulus | src/pages/Multiplicativo.jsx:53 | `M = toInt(m, 2)` is at least 1 when `m` is a double of at least 1 or `Infinity` |
| Multiplicativo.Derive | src/pages/Multiplicativo.jsx:29-47 | parameters exist exactly when `X0` and `D` are filled in and the multiplier or `K` is; then `D >= 1`, `g >= 3`, and `m` is `2^g` for `g <= 1023` and `Infinity` beyond |
| Multiplicativo.DeriveFacts | src/pages/Multiplicativo.jsx:35-53 | `D` is `toInt(dCount, 1)` raised to 1; `g` is the given one or `ceil(log2 D) + 2`, raised to 3; the rows' modulus `M` is `2^g` and at least 8 for `g <= 1023`, 2 beyond, and even either way |
| Multiplicativo.MultiplierOdd | src/pages/Multiplicativo.jsx:39 | without an override `a = 3 + 8K` or `5 + 8K`, which is 3 or 5 modulo 8 and hence odd |
| Multiplicativo.ModulusCoversCount | src/pages/Multiplicativo.jsx:42-44 | with `g` derived from `D` and at most 1023, `M >= 4D` |
| Multiplicativo.HugeCountFallsBack | src/pages/Multiplicativo.jsx:42-53 | a `D` above `2^1022` derives `g >= 1024`, so `m` is `Infinity` and the rows use `M = 2` |
| Multiplicativo.GenerateRows | src/pages/Multiplicativo.jsx:49-72 | the rows block computes exactly `D + 1` rows of `(a * prev) % M` from `X0`, with `M = toInt(m, 2)` |
| Multiplicativo.RowsShape | src/pages/Multiplicativo.jsx:57-69 | no rows until ready, then `D + 1` rows numbered from 1, chained through `prev`, each `xi` the truncated remainder of `a * xim1` |
| Multiplicativo.OddSeedStaysOdd | src/pages/Multiplicativo.jsx:39-60 | with the formula's multiplier and an odd `X0`, every value is odd |
| Multiplicativo.X0ParIsEven | src/pages/Multiplicativo.jsx:78 | the warning shows exactly for a filled-in `X0` that `toInt` reads as even |
| Multiplicativo.EvenSeedStillGenerates | src/pages/Multiplicativo.jsx:157-161 | with the warning showing, a ready form still shows its `D + 1` rows, all of them even |
| Mulberry32.Rng.constructor | src/pages/ejercicios/Dados.jsx:9-10 | the state starts at `seed >>> 0` |
| Mulberry32.Rng.Next | src/pages/ejercicios/Dados.jsx:11-16 | a call advances the state by `0x6D2B79F5` modulo 2^32 and returns the mixed output of the new state over 2^32, in [0, 1) |
| Mulberry32.Take | src/pages/ejercicios/Dados.jsx:9-17 | a fresh generator called `n` times returns exactly `Draws(seed >>> 0, n)`: same seed, same values |
| Mulberry32.Unit | src/pages/ejercicios/Dados.jsx:15 | `out / 4294967296` lies in [0, 1) |
| Mulberry32.Draw | src/pages/ejercicios/Dados.jsx:12-15 | every draw lies in [0, 1) |
| Mulberry32.ValueBound | src/pages/ejercicios/Dados.jsx:15 | `>>> 0` of a 32-bit pattern is below 2^32 |
| Mulberry32.StateAfterClosedForm | src/pages/ejercicios/Dados.jsx:12 | after `n` calls the state is `seed + n * 0x6D2B79F5` modulo 2^32 |
| Mulberry32.StateAfterAdd | src/pages/ejercicios/Dados.jsx:12 | `m` calls followed by `n` calls are `m + n` calls |
| Mulberry32.DrawsAt | src/pages/ejercicios/Dados.jsx:11-16 | the `k`-th value is the mixed state after `k + 1` calls, in [0, 1) |
| Mulberry32.DrawsLength | src/pages/ejercicios/Dados.jsx:11-16 | `n` calls give `n` values |
| Mulberry32.DrawsPrefix | src/pages/ejercicios/Dados.jsx:9-17 | the first `m` values of a longer run are the values of a shorter run from the same seed |
| Mulberry32.InverseUndoes | src/pages/ejercicios/Dados.jsx:12 | the increment is invertible modulo 2^32 |
| Mulberry32.NonZeroStep | src/pages/ejercicios/Dados.jsx:12 | fewer than 2^32 calls never advance the state by a multiple of 2^32 |
| Mulberry32.StatesDistinct | src/pages/ejercicios/Dados.jsx:12 | the states after 0 to 2^32 - 1 calls are all different (full period) |
| Mulberry32.PeriodReturns | src/pages/ejercicios/Dados.jsx:12 | after a multiple of 2^32 calls the state is the seed again |
| Mulberry32.FirstOutputFromSeedZero | src/pages/ejercicios/Dados.jsx:12-15 | seed 0: the first state is `0x6D2B79F5` and its mixed output is 1144304738 |
| Seeding.AddedBase | src/pages/ejercicios/Dados.jsx:72 | the additive base is a 32-bit signed value with the pattern of `BASE + epoch` |
| Seeding.XoredBase | src/pages/ejercicios/Dados.jsx:73 | the base xored with the epoch shifted left is a 32-bit signed value |
| Seeding.HalvedBase | src/pages/ejercicios/Gallina.jsx:86 | the base plus the halved epoch is a 32-bit signed value with the pattern of `BASE + floor(epoch / 2)` |
| Seeding.TrialSeedsDistinct | src/pages/ejercicios/Dados.jsx:77-79 | fewer than 2^32 trials from one base get different seeds |
| Seeding.AddedTrialSeed | src/pages/ejercicios/Dados.jsx:72-78 | trial `s` of an additive base starts from `BASE + epoch + s` modulo 2^32 |
| Dados.DadoPorU | src/pages/ejercicios/Dados.jsx:20-24 | a face in 1..6 |
| Dados.DadoPorUIsRounding | src/pages/ejercicios/Dados.jsx:20-24 | the bands of 0.2 are `Math.round(1 + 5u)` clamped to 1..6, for every `u` |
| Dados.DadoPorUUnclamped | src/pages/ejercicios/Dados.jsx:21-23 | for a draw in [0, 1) the clamp never fires |
| Dados.HouseGainAffine | src/pages/ejercicios/Dados.jsx:92-97 | the house gain is affine in the rounds won: each won round is worth the prize |
| Dados.HouseGainStep | src/pages/ejercicios/Dados.jsx:92-97 | a round adds `precio - costo7` when the sum is 7 and `precio` otherwise |
| Dados.GainClosedForm | src/pages/ejercicios/Dados.jsx:85-109 | after `n` rounds, `ganadosCasa <= n` and `gananciaCasa = n * precio - (n - ganadosCasa) * costo7` |
| Dados.OneDrawPerRound | src/pages/ejercicios/Dados.jsx:86-87 | each generator is called exactly once per round |
| Dados.RoundFacts | src/pages/ejercicios/Dados.jsx:86-108 | a row repeats the new totals, its sum is two faces in 2..12, and the win count grows exactly when the sum is not 7 |
| Dados.RowsShape | src/pages/ejercicios/Dados.jsx:85-108 | `N` rows; each has `cj = i + 1`, `njgc <= cj`, and a win count that grows exactly when the sum is not 7 |
| Dados.WinsMonotone | src/pages/ejercicios/Dados.jsx:96 | the win count never decreases |
| Dados.SummaryFacts | src/pages/ejercicios/Dados.jsx:111-126 | `NJGC <= NMJ`, `GNC` in closed form, `PJC = 100 * NJGC / NMJ` and within [0, 100], the two seeds `base1 + s` and `base2 + s`, and `NMJ` rows |
| Dados.Percentage | src/pages/ejercicios/Dados.jsx:111 | `(w / n) * 100` lies in [0, 100] for `w <= n` |
| Dados.PlayRound | src/pages/ejercicios/Dados.jsx:86-108 | one round calls each generator once and gives exactly the specified row and totals |
| Dados.PlayTrial | src/pages/ejercicios/Dados.jsx:78-126 | the round loop of trial `s` with fresh generators gives exactly `SimOf` |
| Dados.Simulate | src/pages/ejercicios/Dados.jsx:65-130 | no trials when the form is not ready, else trial `s` for every `s` below the count |
| Dados.ComputeAgregados | src/pages/ejercicios/Dados.jsx:133-150 | `null` exactly without trials, else the means of `GNC`, `NJGC` and `PJC`, and the first trial's `NMJ` |
| Dados.TrialFacts | src/pages/ejercicios/Dados.jsx:111-126 | every trial's summary keeps the promises of `SummaryFacts` |
| Dados.MeansOf | src/pages/ejercicios/Dados.jsx:143-146 | the mean percentage lies in [0, 100], the mean wins in [0, NMJ], and the mean gain is the gain formula at the mean wins |
| Dados.AgregadosFacts | src/pages/ejercicios/Dados.jsx:133-150 | over the trials of a run the averages keep those promises |
| Tienda.ArticulosPorCliente | src/pages/ejercicios/Tienda.jsx:57-62 | at most 3 items per customer |
| Tienda.ArticulosMonotone | src/pages/ejercicios/Tienda.jsx:57-62 | a larger draw never buys fewer items, and none exactly when the draw is at most 0.2 |
| Tienda.ClientesPorU | src/pages/ejercicios/Tienda.jsx:93 | at most 4 customers in an hour |
| Tienda.ClientesIsFloor | src/pages/ejercicios/Tienda.jsx:93 | for a draw in [0, 1) the bands are `Math.floor(u * 5)` |
| Tienda.Sold | src/pages/ejercicios/Tienda.jsx:96-99 | `k` customers buy at most `3k` items |
| Tienda.SoldStep | src/pages/ejercicios/Tienda.jsx:96-99 | one more customer adds that customer's items, from the next draw |
| Tienda.AfterStep | src/pages/ejercicios/Tienda.jsx:91-118 | one more hour is one more step of the totals and one more row |
| Tienda.MarginOfCount | src/pages/ejercicios/Tienda.jsx:101-103 | revenue less product cost on `n` items is `n * (PVU - CUA)` |
| Tienda.HourFacts | src/pages/ejercicios/Tienda.jsx:93-117 | an hour's row: its number, at most 4 customers and 12 items, revenue and cost at the unit prices, profit their difference |
| Tienda.SoldBound | src/pages/ejercicios/Tienda.jsx:91-108 | at most 12 items an hour, and one arrivals draw per hour |
| Tienda.StepKeepsTotals | src/pages/ejercicios/Tienda.jsx:105-108 | an hour keeps the totals equal to the items sold at price and at cost, and the profit their difference |
| Tienda.TotalsClosedForm | src/pages/ejercicios/Tienda.jsx:84-118 | after any number of hours the totals are in that form |
| Tienda.CustomersSnoc | src/pages/ejercicios/Tienda.jsx:93 | one more row adds its customers |
| Tienda.StepCustomers | src/pages/ejercicios/Tienda.jsx:96-99 | an hour calls the items generator once per customer |
| Tienda.ItemDraws | src/pages/ejercicios/Tienda.jsx:96-99 | over a trial the items generator is called once per customer shown |
| Tienda.RowsShape | src/pages/ejercicios/Tienda.jsx:91-118 | `H` rows numbered from 1, each keeping the hour's facts |
| Tienda.TotalIsSumOfRows | src/pages/ejercicios/Tienda.jsx:108-120 | `gananciaTotal` is the sum of the hourly profits shown |
| Tienda.SummaryFacts | src/pages/ejercicios/Tienda.jsx:120-135 | items within 12 an hour, total profit at the margin, net profit after the fixed cost, and `H` rows |
| Tienda.ServeCustomers | src/pages/ejercicios/Tienda.jsx:96-99 | the customer loop sells exactly `Sold` and advances the items generator once per customer |
| Tienda.PlayHour | src/pages/ejercicios/Tienda.jsx:92-117 | an hour gives exactly the next state and the next row |
| Tienda.PlayTrial | src/pages/ejercicios/Tienda.jsx:81-135 | the hour loop of trial `s` gives exactly `SimOf` |
| Tienda.Simulate | src/pages/ejercicios/Tienda.jsx:65-139 | no trials when the form is not ready, else trial `s` for every `s` below the count |
| Tienda.ComputeAgregados | src/pages/ejercicios/Tienda.jsx:142-158 | `null` exactly without trials, else the means of items sold, total profit and net profit |
| Tienda.MeansOf | src/pages/ejercicios/Tienda.jsx:152-156 | the mean items lie in [0, 12H], the mean profit is the margin on the mean items, the mean net profit is the mean profit less `CF` |
| Tienda.AgregadosFacts | src/pages/ejercicios/Tienda.jsx:142-158 | over the trials of a run the averages keep those promises |
| Gallina.HuevosPorU | src/pages/ejercicios/Gallina.jsx:24-37 | at most 4 eggs a day |
| Gallina.HuevosPoissonLambda1 | src/pages/ejercicios/Gallina.jsx:32-37 | the scan of the threshold table returns the count of the first threshold above `u`, and 4 when none is |
| Gallina.HuevosMonotone | src/pages/ejercicios/Gallina.jsx:24-37 | a larger draw never lays fewer eggs, and none exactly when the draw is below 0.37 |
| Gallina.EggsFacts | src/pages/ejercicios/Gallina.jsx:110-123 | after `k` eggs: one event draw each, one survival draw per hatched egg, broken + kept + chicks sold at most `k`, income from kept eggs and chicks at their prices |
| Gallina.EggStep | src/pages/ejercicios/Gallina.jsx:111-122 | one more egg keeps those promises |
| Gallina.AfterStep | src/pages/ejercicios/Gallina.jsx:102-139 | one more day is one more step of the totals and one more row |
| Gallina.DayFacts | src/pages/ejercicios/Gallina.jsx:103-138 | a day: its number, at most four eggs, one event draw per egg, outcomes within the eggs laid, income at the prices, totals grown by it |
| Gallina.StepKeepsTotals | src/pages/ejercicios/Gallina.jsx:125-128 | a day keeps the income equal to the eggs kept and chicks sold at their prices |
| Gallina.TotalsClosedForm | src/pages/ejercicios/Gallina.jsx:95-139 | after `n` days the income is in that form and at most `4n` eggs were broken, kept or sold as chicks |
| Gallina.RunningIncome | src/pages/ejercicios/Gallina.jsx:128-137 | each row's `ingresoAcum` is the previous one plus its own `ingresoDia` |
| Gallina.FinalIncome | src/pages/ejercicios/Gallina.jsx:137-141 | the trial's income is the last row's `ingresoAcum` |
| Gallina.TotalsOfSnoc | src/pages/ejercicios/Gallina.jsx:125-128 | one more row adds its daily figures to the column totals |
| Gallina.SummaryFacts | src/pages/ejercicios/Gallina.jsx:141-161 | at most four eggs a day, income from eggs and chicks, `ingresoNeto = ingresoTotal - 300`, daily mean times `D` equals the income, and `D` rows |
| Gallina.SummarizeOk | src/pages/ejercicios/Gallina.jsx:141-143 | totals in closed form give a summary that keeps those promises |
| Gallina.OneEgg | src/pages/ejercicios/Gallina.jsx:111-122 | one egg gives exactly the specified counters and generator states |
| Gallina.LayEggs | src/pages/ejercicios/Gallina.jsx:110-123 | the egg loop gives exactly the counters of `Eggs` |
| Gallina.PlayDay | src/pages/ejercicios/Gallina.jsx:103-138 | a day gives exactly the next state and row, and keeps the totals equal to the column sums |
| Gallina.PlayTrial | src/pages/ejercicios/Gallina.jsx:91-161 | the day loop of trial `s` gives exactly `SimOf`, with totals equal to the column sums |
| Gallina.Simulate | src/pages/ejercicios/Gallina.jsx:90-164 | no trials when the form is not ready, else trial `s` for every `s` below the count |
| Gallina.ComputeAgregados | src/pages/ejercicios/Gallina.jsx:168-190 | `null` exactly without trials, else the means of the six summary fields |
| Gallina.TrialOk | src/pages/ejercicios/Gallina.jsx:145-161 | every trial of a run keeps its summary's promises |
| Gallina.MeanCounts | src/pages/ejercicios/Gallina.jsx:182-184 | the mean broken, kept and chick counts lie in [0, 4D] |
| Gallina.MeanNet | src/pages/ejercicios/Gallina.jsx:185-186 | the mean net income is the mean income less 300 |
| Gallina.MeanDaily | src/pages/ejercicios/Gallina.jsx:185-187 | the mean daily income times `D` is the mean income |
| Gallina.AgregadosFacts | src/pages/ejercicios/Gallina.jsx:168-190 | over the trials of a run: the mean broken eggs, eggs kept and chicks sold each within [0, 4D], the mean net income is the mean income less 300, and the mean daily income times `D` is the mean income |
| Azucar.Sell | src/pages/ejercicios/Azucar.jsx:111-121 | `ventas + perdida = demanda`, `ventas <= inv`, the stock falls by `ventas`, there is a loss exactly when demand exceeds stock and then the stock is 0, all non-negative |
| Azucar.Lead | src/pages/ejercicios/Azucar.jsx:149 | a lead time of 1 or 2 days |
| Azucar.LeadIsFloor | src/pages/ejercicios/Azucar.jsx:149 | for a draw in [0, 1) the two bands are `1 + Math.floor(u * 2)` |
| Azucar.DayKeepsStock | src/pages/ejercicios/Azucar.jsx:103-161 | a day keeps the stock in [0, CAP], and a pending order of more than 0 and at most the capacity, arriving within 1 or 2 days |
| Azucar.DayFacts | src/pages/ejercicios/Azucar.jsx:103-186 | a day's row and state: sales, losses, order only on review days with none pending, cost of what arrived before the clamp, holding cost of the mean stock, `gananciaAcum = ingresoAcum - costoAcum` |
| Azucar.HoldingCostNonNeg | src/pages/ejercicios/Azucar.jsx:160 | the holding cost is not negative |
| Azucar.TrialInvariant | src/pages/ejercicios/Azucar.jsx:89-187 | after `n` days the stock keeps its promises, there were at most `n` orders, and the demand lost is within the demand |
| Azucar.RowsShape | src/pages/ejercicios/Azucar.jsx:103-187 | `D` rows, each keeping the promises of a row |
| Azucar.SummaryFacts | src/pages/ejercicios/Azucar.jsx:189-202 | `gananciaNeta = ingreso - costo`, `capacidadSuficiente` exactly when the loss is at most 1e-6, the loss within the demand, at most `D` orders, and `D` rows |
| Azucar.DrawUnit01 | src/pages/ejercicios/Azucar.jsx:7-15 | every mulberry32 draw lies in [0, 1) |
| Azucar.AccumulatedSnoc | src/pages/ejercicios/Azucar.jsx:98-165 | one more row adds its daily columns to the accumulators |
| Azucar.AccumulateDay | src/pages/ejercicios/Azucar.jsx:98-165 | a day keeps `costoTotal = CAP * CADQ + Σ(costoInvDia + costoOrdenarHoy + costoAdqHoy)` and the ordering costs at `numOrdenes * CORD` |
| Azucar.SellStage | src/pages/ejercicios/Azucar.jsx:111-121 | the sales branch gives exactly `Sell` |
| Azucar.ArriveStage | src/pages/ejercicios/Azucar.jsx:124-137 | the arrival branch gives exactly `Arrive` |
| Azucar.ReviewStage | src/pages/ejercicios/Azucar.jsx:140-157 | the review branch gives exactly `ReviewStock`, drawing a lead time only for an order |
| Azucar.PlayDay | src/pages/ejercicios/Azucar.jsx:103-186 | a day gives exactly the next state and row, and keeps the accumulators equal to the column sums |
| Azucar.PlayTrial | src/pages/ejercicios/Azucar.jsx:85-204 | the day loop of trial `s` gives exactly `SimOf`, with costs equal to the initial stock's cost plus the column sums |
| Azucar.Simulate | src/pages/ejercicios/Azucar.jsx:65-208 | no trials when the form is not ready, else trial `s` for every `s` below the count |
| Azucar.CapOK | src/pages/ejercicios/Azucar.jsx:221 | the count of trials with enough capacity is at most the trials |
| Azucar.ComputeAgregados | src/pages/ejercicios/Azucar.jsx:211-232 | `null` exactly without trials, else the means of five summary fields and the share with enough capacity |
| Azucar.MeanProfit | src/pages/ejercicios/Azucar.jsx:224-227 | the mean net profit is the mean income less the mean cost |
| Azucar.MeanLost | src/pages/ejercicios/Azucar.jsx:225 | the mean demand lost is not negative |
| Azucar.MeanOrders | src/pages/ejercicios/Azucar.jsx:228 | with at most `d` orders per trial the mean lies in [0, d] |
| Azucar.CapShare | src/pages/ejercicios/Azucar.jsx:201-229 | `tasaCapOK` lies in [0, 1], and is 1 exactly when every trial lost at most 1e-6 |
| Azucar.AllCapOK | src/pages/ejercicios/Azucar.jsx:221 | every trial counts exactly when every trial has enough capacity |
| Azucar.AgregadosFacts | src/pages/ejercicios/Azucar.jsx:211-232 | over the trials of a run the averages keep those promises |
| Stats.SumBounds | src/pages/ejercicios/Dados.jsx:138-146 | element bounds bound the sum |
| Stats.MeanBounds | src/pages/ejercicios/Dados.jsx:143-146 | the mean lies within bounds on the values |
| Stats.SumNonNeg | src/pages/ejercicios/Azucar.jsx:214-225 | a sum of non-negative values is not negative |
| Stats.MeanNonNeg | src/pages/ejercicios/Azucar.jsx:225 | a mean of non-negative values is not negative |
| Stats.SumAffine | src/pages/ejercicios/Dados.jsx:139-144 | the sum of an affine image is the affine image of the sum |
| Stats.MeanAffine | src/pages/ejercicios/Dados.jsx:144-145 | the mean commutes with an affine map |
| Stats.SumDiff | src/pages/ejercicios/Azucar.jsx:216-219 | the sum of differences is the difference of sums |
| Stats.MeanDiff | src/pages/ejercicios/Azucar.jsx:224-227 | the mean of differences is the difference of means |
| Stats.MeanScaled | src/pages/ejercicios/Gallina.jsx:185-187 | values `n` times smaller have an `n` times smaller mean |
| Stats.SumSnoc | src/pages/ejercicios/Dados.jsx:138-142 | extending a prefix by one element adds that element to its sum |
| Stats.AtPriceIsProduct | src/pages/ejercicios/Tienda.jsx:101-102 | `n` items at a unit price cost `n * price` |
| Stats.AtPriceAdd | src/pages/ejercicios/Tienda.jsx:105-107 | amounts at a unit price add up like the items they count |
| Compounding.Years | src/pages/ejercicios/DepositoFijo.jsx:27 | the loop runs for the whole years in `n`, none below 1 |
| Compounding.YearsBound | src/pages/ejercicios/DepositoFijo.jsx:27 | `t <= n` holds exactly for the years the loop runs |
| Compounding.BalanceStep | src/pages/ejercicios/DepositoFijo.jsx:28-31 | a year adds its interest to the capital |
| Compounding.YearRowFacts | src/pages/ejercicios/DepositoFijo.jsx:28-30 | a row: interest `kap_t * i`, end capital `kap_t + interes = kap_t * (1 + i)` |
| Compounding.BalanceClosedForm | src/pages/ejercicios/DepositoFijo.jsx:27-33 | after `t` years the capital is `c0 * (1 + i)^t` |
| Compounding.BalanceGrows | src/pages/ejercicios/DepositoFijo.jsx:28-29 | with `i >= 0` the capital never falls below the start or from year to year |
| Compounding.ScheduleRow | src/pages/ejercicios/DepositoFijo.jsx:27-31 | row `j` is year `j + 1`, starts from `c0` or the previous end capital, with interest and end capital as above |
| Compounding.ScheduleEnd | src/pages/ejercicios/DepositoFijo.jsx:31-33 | the last row ends with `c0 * (1 + i)^m` |
| Compounding.ScheduleGrows | src/pages/ejercicios/DepositoFijo.jsx:28-29 | with `i >= 0` each row ends with at least its start, and starts with at least `c0` |
| Compounding.Compound | src/pages/ejercicios/DepositoFijo.jsx:24-33 | the loop gives exactly the schedule of the whole years in `n` and the capital after them |
| DepositoFijo.Rate | src/pages/ejercicios/DepositoFijo.jsx:23 | the rate is the percentage over 100 |
| DepositoFijo.Simulate | src/pages/ejercicios/DepositoFijo.jsx:21-34 | the page computes exactly `Plan` |
| DepositoFijo.PlanFacts | src/pages/ejercicios/DepositoFijo.jsx:11-33 | nothing unless ready; then `floor(anios)` rows from `capital0`, and `kFinal = capital0 * (1 + i)^floor(anios)` = the last row's end capital |
| DepositoFijo.RowsChain | src/pages/ejercicios/DepositoFijo.jsx:24-31 | each row: year `j + 1`, interest `kap_t * i`, end = start + interest, start = previous end or `capital0` |
| DepositoFijo.CapitalGrows | src/pages/ejercicios/DepositoFijo.jsx:28-29 | with a non-negative rate the capital never falls |
| DepositoVariable.TasaBands | src/pages/ejercicios/DepositoVariable.jsx:15-21 | `null` exactly for capital at most 0; 3.5%, 3.7% and 4% exactly on (0, 10000], (10000, 100000] and above |
| DepositoVariable.TasaMonotone | src/pages/ejercicios/DepositoVariable.jsx:17-19 | a larger positive capital never gets a smaller rate |
| DepositoVariable.ReadyHasTasa | src/pages/ejercicios/DepositoVariable.jsx:10-25 | a ready form always has a rate and a final capital |
| DepositoVariable.Simulate | src/pages/ejercicios/DepositoVariable.jsx:24-36 | the page computes exactly `Plan` |
| DepositoVariable.PlanFacts | src/pages/ejercicios/DepositoVariable.jsx:10-35 | nothing unless ready; then `floor(anios)` rows from `capital0`, and `kFinal = capital0 * (1 + tasa)^floor(anios)` = the last row's end capital |
| DepositoVariable.RateFixed | src/pages/ejercicios/DepositoVariable.jsx:21-34 | every row earns at the rate of `capital0`, whatever its own capital |
| DepositoVariable.RateNotReevaluated | src/pages/ejercicios/DepositoVariable.jsx:29-34 | 10 000 grows to 10 350 (a 3.7% capital) and still earns 3.5% in year two |
| DepositoVariable.CapitalGrows | src/pages/ejercicios/DepositoVariable.jsx:30-31 | the capital never falls |
| Ledger.TableLength | src/pages/ejercicios/Azucar.jsx:103-187 | one row per period, for the day loop here and equally for the round, hour and day loops of Dados, Tienda and Gallina |
| Ledger.TableAt | src/pages/ejercicios/Azucar.jsx:103-187 | row `i` is period `i + 1` played from the state after `i` periods, for every page's period loop |

## Left out

- Rendering, the `money` currency formatter, the carousel (`goPrev`, `goNext`, `goTo`) and the `useState`/`useMemo` plumbing: user interface only.
- The seed epoch built from `Math.random()` and `Date.now()`: it is nondeterministic, so every simulation takes it as a parameter.
- `expRandMean` in `Azucar.jsx` uses `Math.log`, a transcendental floating-point function. The daily demand is given as a function `demandOf` of the draw, required only to be non-negative.
- Floating point: prices, costs, interest and draws are Dafny `real`s, so IEEE rounding is not modelled. The comparisons of draws with the thresholds (0.2, 0.37, 1e-6, …) are exact here.
- Lineal.GenerateRows: assumes `A * prev + C` is computed exactly; the page computes it in doubles, which lose precision above 2^53.
- Multiplicativo.GenerateRows: assumes `A * prev` is computed exactly; the page computes it in doubles, which are exact only while the product stays below 2^53. `2 ** g` itself is exact up to `g = 1023` and `Infinity` beyond, and both cases are modelled.
- Multiplicativo.ModulusCoversCount: states `M >= 4D` only while `g <= 1023`, because for a larger `D` the page's `m` is `Infinity` and its rows use `M = 2` (`Multiplicativo.HugeCountFallsBack`).
- The three-decimal display of `ri` and the displayed `g = round(log2 P)` of the linear page: display only.
- The `op` text column of the generator rows: display only.
- `Math.ceil(Math.log2(D))` is computed exactly by `Multiplicativo.CeilLog2`. For huge `D` the page's floating-point `log2` can differ from it.
- Text parsing: a field is modelled as already read by `Number` (empty, a finite number, or not a number). Whitespace-only text, which `Number` reads as 0, is not distinguished. The deposit pages take their fields as optional reals.
- The exercise pages' numeric fields (rounds, hours, days, review interval, trial count) are natural numbers here, so fractional values are not covered. On a fractional value the page behaves as follows. The period loops `1..N` (src/pages/ejercicios/Dados.jsx:85, src/pages/ejercicios/Tienda.jsx:91, src/pages/ejercicios/Gallina.jsx:102, src/pages/ejercicios/Azucar.jsx:103) run `floor` times, while `PJC` and the daily mean still divide by the fractional count. The trial loops `s < S` run `ceil(S)` times. A fractional review interval `K` changes no loop count, only which days pass `d_ % K === 0` (src/pages/ejercicios/Azucar.jsx:143): with `K = 1.5` a review falls on days 3, 6, 9 and so on.
- Mulberry32.Rng.Next: the page's `t` is a double that grows by `0x6D2B79F5` per call. It is exact only for about 4.9 million calls, and after that the double rounds. The model keeps `t` modulo 2^32, which is what every bitwise operator reads.
- Multiplicativo.Rows: the page says the extra row shows the repetition. The model proves only that every value stays odd for an odd seed, or even for an even one. It does not prove that a value repeats within `D + 1` rows, because `D + 1` can be smaller than the modulus.
- Lineal.RowsRepeat and Congruential.ValuesInRange: proved for non-negative `a`, `X0` and `c`. With negative inputs JavaScript's `%` yields values in (-m, m), and those are not covered by the repetition lemma.
