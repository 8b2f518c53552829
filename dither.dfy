/** The per-channel 32-bit dither generator, its seeding, the denormal
    guard on input samples, and the exponent-scaled TPDF dither term. */
module Dither {
  import opened Numerics

  /** Input samples smaller than this in magnitude are replaced. */
  const InputGuardThreshold: real := 1.18e-23
  /** The replacement is the dither state times this. */
  const InputGuardScale: real := 1.18e-17
  /** The seeding loop draws until the state reaches this value. */
  const SeedFloor: bv32 := 16386
  /** RAND_MAX of the C library (glibc: 2^31 - 1). */
  const RandMax: bv32 := 0x7FFF_FFFF
  const DitherOffset: real := 2147483647.0   // uint32_t(0x7fffffff)
  const DitherScale: real := 5.5e-36

  function ShiftXor13(x: bv32): bv32 { x ^ (x << 13) }
  function ShiftXor17(x: bv32): bv32 { x ^ (x >> 17) }
  function ShiftXor5(x: bv32): bv32 { x ^ (x << 5) }

  /** One step of the generator: `x ^= x << 13; x ^= x >> 17; x ^= x << 5`
      on a uint32_t. Each xor-shift is invertible and fixes 0, so a
      non-zero state never becomes 0. */
  function Xorshift(x: bv32): (r: bv32)
    ensures x != 0 ==> r != 0
  {
    var r := ShiftXor5(ShiftXor17(ShiftXor13(x)));
    assert x != 0 ==> r != 0 by {
      if x != 0 {
        ShiftXor13NonZero(x);
        ShiftXor17NonZero(ShiftXor13(x));
        ShiftXor5NonZero(ShiftXor17(ShiftXor13(x)));
      }
    }
    r
  }

  lemma ShiftXor13NonZero(x: bv32)
    requires x != 0
    ensures ShiftXor13(x) != 0
  {
  }

  lemma ShiftXor17NonZero(x: bv32)
    requires x != 0
    ensures ShiftXor17(x) != 0
  {
  }

  lemma ShiftXor5NonZero(x: bv32)
    requires x != 0
    ensures ShiftXor5(x) != 0
  {
  }

  /** Running the generator n times; like each step, it never takes a
      non-zero state to 0. */
  function Iterate(x: bv32, n: nat): (r: bv32)
    ensures x != 0 ==> r != 0
  {
    if n == 0 then x else Xorshift(Iterate(x, n - 1))
  }

  /** `(uint32_t)rand() * (uint32_t)UINT32_MAX`, which wraps to -r. */
  function Scramble(r: bv32): (s: bv32)
    ensures s == 0 - r
  {
    r * 0xFFFF_FFFF
  }

  /** Any non-zero draw of rand() scrambles to at least SeedFloor, so the
      seeding loop stops at the first non-zero draw; a zero draw gives 0. */
  lemma ScrambleReachesFloor(r: bv32)
    requires r <= RandMax
    ensures Scramble(r) >= SeedFloor <==> r != 0
  {
  }

  /** The seeding loop `fpd = 1; while (fpd < 16386) fpd = scramble(rand());`
      over the successive results of rand() from position `start`. It stops
      right after the first non-zero draw, with a state of at least
      SeedFloor. */
  method Seed(draws: seq<bv32>, start: nat) returns (fpd: bv32, next: nat)
    requires start <= |draws|
    requires forall i | start <= i < |draws| :: draws[i] <= RandMax
    requires exists i | start <= i < |draws| :: draws[i] != 0
    ensures fpd >= SeedFloor && fpd != 0
    ensures start < next <= |draws|
    ensures draws[next - 1] != 0 && fpd == Scramble(draws[next - 1])
    ensures forall i | start <= i < next - 1 :: draws[i] == 0
  {
    fpd := 1;
    next := start;
    while fpd < SeedFloor
      invariant start <= next <= |draws|
      invariant forall i | start <= i < next :: draws[i] == 0 || i == next - 1
      invariant next == start <==> fpd == 1
      invariant next > start ==> fpd == Scramble(draws[next - 1])
      invariant next > start && fpd < SeedFloor ==> draws[next - 1] == 0
      invariant fpd < SeedFloor ==> forall i | start <= i < next :: draws[i] == 0
      invariant fpd >= SeedFloor ==> next > start && draws[next - 1] != 0
      decreases |draws| - next
    {
      if next == |draws| {
        assert false;
      }
      ScrambleReachesFloor(draws[next]);
      fpd := Scramble(draws[next]);
      next := next + 1;
    }
  }

  /** The denormal guard: an input smaller than InputGuardThreshold in
      magnitude is replaced by `fpd * 1.18e-17` (the state before this
      frame's generator step); afterwards, with a non-zero state, no
      sample entering the chain is that small. */
  function Guard(x: real, fpd: bv32): (r: real)
    ensures Abs(x) >= InputGuardThreshold ==> r == x
    ensures Abs(x) < InputGuardThreshold ==> r == (fpd as int as real) * InputGuardScale
    ensures fpd != 0 ==> Abs(r) >= InputGuardThreshold
  {
    if Abs(x) < InputGuardThreshold then (fpd as int as real) * InputGuardScale else x
  }

  /** `d * 5.5e-36 * p`: an offset from the midpoint scaled to a dither
      amplitude. A zero offset gives nothing, and with a positive scale
      the amplitude has the sign of the offset. */
  function Amplitude(d: real, p: real): (r: real)
    ensures d == 0.0 ==> r == 0.0
    ensures p > 0.0 && d > 0.0 ==> r > 0.0
    ensures p > 0.0 && d < 0.0 ==> r < 0.0
  {
    SignOfProduct(d, DitherScale);
    if p > 0.0 then
      SignOfProduct(d * DitherScale, p);
      d * DitherScale * p
    else
      d * DitherScale * p
  }

  /** Multiplying by a positive number keeps the sign. */
  lemma SignOfProduct(d: real, w: real)
    requires w > 0.0
    ensures d > 0.0 ==> d * w > 0.0
    ensures d < 0.0 ==> d * w < 0.0
  {
    if d > 0.0 {
      MulNonNeg(d, w);
      assert d * w != 0.0;
    } else if d < 0.0 {
      MulNonNeg(-d, w);
      assert (-d) * w == -(d * w);
      assert d * w != 0.0;
    }
  }

  /** The amplitude is centred: offsets mirrored about the midpoint give
      opposite amplitudes. */
  lemma AmplitudeOdd(d1: real, d2: real, p: real)
    requires d1 == -d2
    ensures Amplitude(d1, p) == -Amplitude(d2, p)
  {
    assert d1 * DitherScale == -(d2 * DitherScale);
    assert (-(d2 * DitherScale)) * p == -(d2 * DitherScale * p);
  }

  /** `(double(fpd) - 0x7fffffff) * 5.5e-36 * pow(2, expon + 62)`: the
      dither term, centred on the state's midpoint and scaled by the
      binary exponent of the sample it is added to. The midpoint state
      adds nothing; with a positive scale a state above the midpoint adds
      a positive term and one below it a negative term. */
  function DitherTerm(fpd: bv32, expon: int, pow2: int -> real): (r: real)
    ensures fpd as int == 0x7FFF_FFFF ==> r == 0.0
    ensures pow2(expon + 62) > 0.0 && fpd as int > 0x7FFF_FFFF ==> r > 0.0
    ensures pow2(expon + 62) > 0.0 && fpd as int < 0x7FFF_FFFF ==> r < 0.0
  {
    Amplitude((fpd as int as real) - DitherOffset, pow2(expon + 62))
  }
}
