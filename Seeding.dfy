/** How the exercise pages turn the shared seed epoch into the seed of each
    generator of each trial. A page combines each source's base constant with
    the epoch in one of three ways, then seeds trial `s` with `base + s`. */
module Seeding {
  import opened JsInt

  /** `(BASE + (seedEpoch | 0)) | 0` */
  function AddedBase(base: int, epoch: uint32): (b: int)
    ensures -TWO31 <= b < TWO31
    ensures ToUint32(b) == ToUint32(base + epoch)
  {
    ToUint32OfInt32Plus(base + ToInt32(epoch), 0);
    ToUint32OfInt32Plus(epoch, base);
    ToInt32(base + ToInt32(epoch))
  }

  /** `(BASE ^ ((seedEpoch << 1) | 0)) | 0`: the epoch's pattern shifted left by
      one bit (its top bit is lost) and xored with the constant's pattern. */
  function XoredBase(base: nat, epoch: uint32): (b: int)
    ensures -TWO31 <= b < TWO31
  {
    ToInt32((Bits(base, 32) ^ (Bits(epoch, 32) << 1)) as int)
  }

  /** `(BASE + ((seedEpoch >>> 1) | 0)) | 0` */
  function HalvedBase(base: int, epoch: uint32): (b: int)
    ensures -TWO31 <= b < TWO31
    ensures ToUint32(b) == ToUint32(base + epoch / 2)
  {
    ToUint32OfInt32Plus(base + ToInt32(epoch / 2), 0);
    ToUint32OfInt32Plus(epoch / 2, base);
    ToInt32(base + ToInt32(epoch / 2))
  }

  /** The state of `mulberry32(base + s)` right after construction:
      `(base + s) >>> 0`. */
  function TrialSeed(base: int, s: nat): uint32 {
    ToUint32(base + s)
  }

  /** Trials get different seeds from the same base (fewer than 2^32 trials
      apart), so no two trials share a generator stream. */
  lemma TrialSeedsDistinct(base: int, s: nat, s': nat)
    requires s < s' < s + TWO32
    ensures TrialSeed(base, s) != TrialSeed(base, s')
  {
    ModDiff(base + s', base + s);
    assert (base + s') - (base + s) == s' - s;
  }

  /** With an additive base, trial `s` starts from `BASE + epoch + s` modulo
      2^32, whatever the int32 wrap-arounds on the way. */
  lemma AddedTrialSeed(base: int, epoch: uint32, s: nat)
    ensures TrialSeed(AddedBase(base, epoch), s) == ToUint32(base + epoch + s)
  {
    var b := AddedBase(base, epoch);
    ModDiff(b, base + epoch);
    var q := (b - (base + epoch)) / TWO32;
    assert b - (base + epoch) == q * TWO32;
    ModShift(base + epoch + s, q);
  }
}
