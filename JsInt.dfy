/** JavaScript's 32-bit integer coercions (ToUint32, ToInt32), written out over
    unbounded integers, and its remainder operator. Every bitwise operator of
    the generator and of the seed derivation goes through one of the
    coercions. */
module JsInt {

  const TWO32: int := 0x1_0000_0000
  const TWO31: int := 0x8000_0000

  /** The values of `x >>> 0`. */
  type uint32 = x: int | 0 <= x < 0x1_0000_0000

  /** `x >>> 0`: reduction modulo 2^32 into [0, 2^32). */
  function ToUint32(x: int): uint32 {
    x % TWO32
  }

  /** `x | 0`: reduction modulo 2^32 into [-2^31, 2^31). */
  function ToInt32(x: int): (r: int)
    ensures -TWO31 <= r < TWO31
    ensures ToUint32(r) == ToUint32(x)
  {
    var u := x % TWO32;
    if u >= TWO31 then u - TWO32 else u
  }

  /** The low `k` bits of `x`, as a bit pattern (`Bits(x, 32)` is the 32-bit
      pattern that JavaScript's bitwise operators read from `x`). */
  function Bits(x: nat, k: nat): bv32
    requires k <= 32
  {
    if k == 0 then 0 else (Bits(x / 2, k - 1) << 1) | (if x % 2 == 1 then 1 else 0)
  }

  /** Adding a small offset after a `| 0` coercion lands on the same 32-bit
      pattern as adding it before: `(b | 0) + s >>> 0 == b + s >>> 0`. */
  lemma ToUint32OfInt32Plus(x: int, s: int)
    ensures ToUint32(ToInt32(x) + s) == ToUint32(x + s)
  {
    var u := x % TWO32;
    assert x == (x / TWO32) * TWO32 + u;
    if u >= TWO31 {
      ModShift(x + s, -(x / TWO32 + 1));
    } else {
      ModShift(x + s, -(x / TWO32));
    }
  }

  /** Adding a multiple of 2^32 does not change the 32-bit pattern. */
  lemma ModShift(a: int, q: int)
    ensures (a + q * TWO32) % TWO32 == a % TWO32
  {
    assert a + q * TWO32 == (a / TWO32 + q) * TWO32 + a % TWO32;
  }

  /** Two integers with the same 32-bit pattern differ by a multiple of 2^32. */
  lemma ModDiff(a: int, b: int)
    ensures a % TWO32 == b % TWO32 ==> (a - b) % TWO32 == 0
  {
    assert a == (a / TWO32) * TWO32 + a % TWO32;
    assert b == (b / TWO32) * TWO32 + b % TWO32;
    if a % TWO32 == b % TWO32 {
      ModShift(0, a / TWO32 - b / TWO32);
      assert a - b == (a / TWO32 - b / TWO32) * TWO32;
    }
  }

  /** The quotient of `a` by a positive `m` truncated toward zero, as
      JavaScript's `%` divides. */
  function JsQuot(a: int, m: int): int
    requires m > 0
  {
    if a >= 0 then a / m else -((-a) / m)
  }

  /** `a % m` for a positive `m`: JavaScript's remainder truncates the
      quotient toward zero, so the remainder takes the sign of `a`, and `a`
      is the truncated quotient times `m` plus the remainder. */
  function JsRem(a: int, m: int): (r: int)
    requires m > 0
    ensures a >= 0 ==> 0 <= r < m
    ensures a < 0 ==> -m < r <= 0
    ensures a == JsQuot(a, m) * m + r
  {
    if a >= 0 then a % m
    else
      assert -a == ((-a) / m) * m + (-a) % m;
      -((-a) % m)
  }
}
