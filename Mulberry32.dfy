/** The mulberry32 generator that every exercise page copies: a 32-bit state
    advanced by a fixed odd increment on every call, and two rounds of
    xor-shift/multiply mixing that turn the state into a 32-bit output, divided
    by 2^32 to give a draw in [0, 1).

    In the source `t` is a double that grows by the increment on every call;
    each bitwise operator reads it modulo 2^32, so the state is kept here as
    that residue. */
module Mulberry32 {
  import opened JsInt

  /** The odd constant added to the state on every call. */
  const INCREMENT: uint32 := 0x6D2B79F5

  /** Its inverse modulo 2^32, and the quotient of their product by 2^32:
      INCREMENT * INVERSE == 1 + INVERSE_CARRY * 2^32. */
  const INVERSE: int := 0xDC58AA5D
  const INVERSE_CARRY: int := 1576479847

  /** `t += 0x6D2B79F5`, read modulo 2^32. */
  function Advance(t: uint32): uint32 {
    (t + INCREMENT) % TWO32
  }

  /** The output function on the 32-bit pattern of the state: the three steps
      of `MixStep`, applied in order. */
  function Mix(t: uint32): uint32 {
    var x := MixSteps(Bits(t, 32), 3);
    ValueBound(x, 32);
    Pow2Of32();
    Value(x, 32)
  }

  /** The unsigned value of the low `k` bits of `x` (`x >>> 0` for k = 32). */
  function Value(x: bv32, k: nat): nat
    requires k <= 32
  {
    if k == 0 then 0 else Value(x >> 1, k - 1) * 2 + (if x & 1 == 1 then 1 else 0)
  }

  function Pow2(k: nat): nat {
    if k == 0 then 1 else 2 * Pow2(k - 1)
  }

  /** The low `k` bits are worth less than 2^k. */
  lemma {:induction false} ValueBound(x: bv32, k: nat)
    requires k <= 32
    ensures Value(x, k) < Pow2(k)
  {
    if k > 0 {
      ValueBound(x >> 1, k - 1);
    }
  }

  lemma Pow2Of32()
    ensures Pow2(32) == TWO32
  {
    Pow2Add(4, 4);
    Pow2Add(8, 8);
    Pow2Add(16, 16);
  }

  lemma {:induction false} Pow2Add(a: nat, b: nat)
    ensures Pow2(a + b) == Pow2(a) * Pow2(b)
  {
    if b > 0 {
      Pow2Add(a, b - 1);
    }
  }

  /** The pattern after the first `n` of the three steps. */
  function MixSteps(x: bv32, n: nat): bv32
    requires n <= 3
  {
    if n == 0 then x else MixStep(n, MixSteps(x, n - 1))
  }

  /** Step `k` of the output function: `Math.imul` is the wrapping product of
      bv32, `>>>` the logical shift, and `r + imul(...)` wraps because `^`
      reads it as int32. */
  function MixStep(k: nat, r: bv32): bv32
    requires 1 <= k <= 3
  {
    if k == 1 then Step1(r) else if k == 2 then Step2(r) else Step3(r)
  }

  /** `let r = Math.imul(t ^ (t >>> 15), 1 | t)`. */
  function Step1(r: bv32): bv32 { (r ^ (r >> 15)) * (1 | r) }

  /** `r ^= r + Math.imul(r ^ (r >>> 7), 61 | r)`. */
  function Step2(r: bv32): bv32 { r ^ (r + (r ^ (r >> 7)) * (61 | r)) }

  /** `r ^ (r >>> 14)`, before the unsigned reading `>>> 0` of `Value`. */
  function Step3(r: bv32): bv32 { r ^ (r >> 14) }

  /** `out / 4294967296`. */
  function Unit(out: uint32): (u: real)
    ensures 0.0 <= u < 1.0
  {
    out as real / TWO32 as real
  }

  /** The value returned by a call on a generator whose state is `t`. */
  function Draw(t: uint32): (u: real)
    ensures 0.0 <= u < 1.0
  {
    Unit(Mix(Advance(t)))
  }

  /** The state after `n` calls. */
  function StateAfter(t: uint32, n: nat): uint32 {
    if n == 0 then t else Advance(StateAfter(t, n - 1))
  }

  /** The first `n` values returned by a generator whose state is `t`. */
  function Draws(t: uint32, n: nat): seq<real> {
    if n == 0 then [] else Draws(t, n - 1) + [Draw(StateAfter(t, n - 1))]
  }

  /** After `n` calls the state is `seed + n * 0x6D2B79F5` modulo 2^32. */
  lemma {:induction false} StateAfterClosedForm(t: uint32, n: nat)
    ensures StateAfter(t, n) == (t + n * INCREMENT) % TWO32
  {
    if n > 0 {
      StateAfterClosedForm(t, n - 1);
      var a := t + (n - 1) * INCREMENT;
      ModShift(a + INCREMENT, -(a / TWO32));
      assert a % TWO32 == a - (a / TWO32) * TWO32;
    }
  }

  /** Calls compose: `m` calls followed by `n` calls are `m + n` calls. */
  lemma {:induction false} StateAfterAdd(t: uint32, m: nat, n: nat)
    ensures StateAfter(StateAfter(t, m), n) == StateAfter(t, m + n)
  {
    if n > 0 {
      StateAfterAdd(t, m, n - 1);
    }
  }

  /** Every value a generator returns lies in [0, 1), and the `k`-th value is
      the mix of the state after `k + 1` calls. */
  lemma {:induction false} DrawsAt(t: uint32, n: nat, k: nat)
    requires k < n
    ensures |Draws(t, n)| == n
    ensures Draws(t, n)[k] == Unit(Mix(StateAfter(t, k + 1)))
    ensures 0.0 <= Draws(t, n)[k] < 1.0
  {
    DrawsLength(t, n);
    if k < n - 1 {
      DrawsAt(t, n - 1, k);
    }
  }

  lemma {:induction false} DrawsLength(t: uint32, n: nat)
    ensures |Draws(t, n)| == n
  {
    if n > 0 {
      DrawsLength(t, n - 1);
    }
  }

  /** Determinism: the first `m` values of a longer run are the values of a
      shorter run from the same seed. */
  lemma {:induction false} DrawsPrefix(t: uint32, m: nat, n: nat)
    requires m <= n
    ensures |Draws(t, n)| == n
    ensures Draws(t, n)[..m] == Draws(t, m)
  {
    DrawsLength(t, n);
    if m < n {
      DrawsPrefix(t, m, n - 1);
      assert Draws(t, n)[..n - 1] == Draws(t, n - 1);
      assert Draws(t, n)[..m] == Draws(t, n)[..n - 1][..m];
    }
  }

  /** Multiplying by the inverse of the increment undoes a multiplication by
      it, modulo 2^32. */
  lemma InverseUndoes(d: int)
    requires 0 <= d < TWO32
    ensures ((d * INCREMENT) % TWO32 * INVERSE) % TWO32 == d
  {
    var p := d * INCREMENT;
    var q := p / TWO32;
    assert p == q * TWO32 + p % TWO32;
    calc {
      (p % TWO32) * INVERSE;
      p * INVERSE - q * TWO32 * INVERSE;
      d * (INCREMENT * INVERSE) - q * INVERSE * TWO32;
      { assert INCREMENT * INVERSE == 1 + INVERSE_CARRY * TWO32; }
      d * (1 + INVERSE_CARRY * TWO32) - q * INVERSE * TWO32;
      d + (d * INVERSE_CARRY - q * INVERSE) * TWO32;
    }
    ModShift(d, d * INVERSE_CARRY - q * INVERSE);
  }

  /** A step of `d` calls, 0 < d < 2^32, never brings the state back. */
  lemma NonZeroStep(d: int)
    requires 0 < d < TWO32
    ensures (d * INCREMENT) % TWO32 != 0
  {
    InverseUndoes(d);
  }

  /** Full period, first half: the states reached after 0, 1, ..., 2^32 - 1
      calls are pairwise different. */
  lemma StatesDistinct(t: uint32, i: nat, j: nat)
    requires i < j < TWO32
    ensures StateAfter(t, i) != StateAfter(t, j)
  {
    var d := j - i;
    var si := StateAfter(t, i);
    StateAfterAdd(t, i, d);
    StateAfterClosedForm(si, d);
    NonZeroStep(d);
    ShiftMoves(si, d * INCREMENT);
  }

  /** Adding an amount that is not a multiple of 2^32 moves every state. */
  lemma ShiftMoves(s: uint32, e: int)
    requires e % TWO32 != 0
    ensures (s + e) % TWO32 != s
  {
    ModDiff(s + e, s);
  }

  /** Full period, second half: after any multiple of 2^32 calls the seed
      comes back. */
  lemma PeriodReturns(t: uint32, n: nat)
    requires n % TWO32 == 0
    ensures StateAfter(t, n) == t
  {
    StateAfterClosedForm(t, n);
    var q := n / TWO32;
    assert n == q * TWO32;
    assert n * INCREMENT == (q * INCREMENT) * TWO32;
    ModShift(t, q * INCREMENT);
    assert t % TWO32 == t;
  }

  /** A known answer: a generator seeded with 0 is in state 0x6D2B79F5 after
      its first call, and that state mixes to 1144304738. */
  lemma FirstOutputFromSeedZero()
    ensures StateAfter(0, 1) == 0x6D2B79F5
    ensures MixSteps(0x6D2B79F5, 3) == 1144304738
  {
  }

  /** One generator instance: the closure returned by `mulberry32(seed)`,
      whose captured variable `t` is the field. */
  class Rng {
    var t: uint32

    /** `let t = seed >>> 0`. */
    constructor (seed: int)
      ensures t == ToUint32(seed)
    {
      t := ToUint32(seed);
    }

    /** One call of the closure. */
    method Next() returns (u: real)
      modifies this
      ensures t == Advance(old(t))
      ensures u == Draw(old(t))
      ensures 0.0 <= u < 1.0
    {
      t := Advance(t);
      u := Unit(Mix(t));
    }
  }

  /** A fresh generator called `n` times returns exactly the values the
      specification gives for its seed, so two generators built from the same
      seed return the same values. */
  method Take(seed: int, n: nat) returns (us: seq<real>)
    ensures us == Draws(ToUint32(seed), n)
  {
    var rng := new Rng(seed);
    us := [];
    var k := 0;
    while k < n
      invariant 0 <= k <= n
      invariant rng.t == StateAfter(ToUint32(seed), k)
      invariant us == Draws(ToUint32(seed), k)
    {
      var u := rng.Next();
      us := us + [u];
      k := k + 1;
    }
  }
}
