/** The audio processor object: the DSP state as fields updated in place,
    the two 15-slot lowpass arrays, the dither states and the five meter
    levels. Each method is proved against the value model of the same
    step: after it runs, the state read through CoreState() is what the
    corresponding function of the old state computes. */
module Processor {
  import opened Numerics
  import opened Biquad
  import opened Mackity
  import opened DrumSlam
  import opened Dither
  import opened Chain

  /** Length of a `mack_biquad` array: 7 coefficient slots, then the left
      history at 7-10 and the right history at 11-14. */
  const BiquadSize: nat := 15
  const LeftHistory: nat := 7
  const RightHistory: nat := 11

  /** Slots 0-6 of a lowpass array. */
  function SlotsOf(a: array<real>): Slots
    reads a
    requires a.Length == BiquadSize
  {
    Slots(a[0], a[1], a[2], a[3], a[4], a[5], a[6])
  }

  /** The four history slots starting at `base`. */
  function HistoryAt(a: array<real>, base: nat): History
    reads a
    requires base + 4 <= a.Length
  {
    History(a[base], a[base + 1], a[base + 2], a[base + 3])
  }

  const QuietHistory: History := History(0.0, 0.0, 0.0, 0.0)
  const QuietMack: MackLane := MackLane(0.0, 0.0, QuietHistory, QuietHistory)
  const QuietDrum: DrumLane := DrumLane(0.0, 0.0, 0.0, 0.0, 0.0, 0.0, 0.0, 0.0, 0.0)
  const QuietMeters: Meters := Meters(0.0, 0.0, 0.0, 0.0, 0.0)

  /** The coefficient block for one lowpass array: corner and Q into
      slots 0 and 1, then K = tan(pi * corner) and the normalised
      coefficients into slots 2-6. The histories are left alone. */
  method DesignInto(a: array<real>, freq: real, reso: real, tan: real -> real)
    requires a.Length == BiquadSize && Designable(freq, reso, tan)
    modifies a
    ensures SlotsOf(a) == Design(freq, reso, tan)
    ensures HistoryAt(a, LeftHistory) == old(HistoryAt(a, LeftHistory))
    ensures HistoryAt(a, RightHistory) == old(HistoryAt(a, RightHistory))
  {
    a[0] := freq;
    a[1] := reso;
    var k := tan(Pi * a[0]);
    var norm := 1.0 / NormDenominator(k, a[1]);
    a[2] := k * k * norm;
    a[3] := 2.0 * a[2];
    a[4] := a[2];
    a[5] := 2.0 * (k * k - 1.0) * norm;
    a[6] := (1.0 - k / a[1] + k * k) * norm;
  }

  /** One direct-form-I step on each channel's history of a lowpass
      array, left then right; the coefficient slots are untouched. */
  method FilterStereo(a: array<real>, xL: real, xR: real) returns (yL: real, yR: real)
    requires a.Length == BiquadSize
    modifies a
    ensures Tick(yL, HistoryAt(a, LeftHistory)) == Step(old(SlotsOf(a)), old(HistoryAt(a, LeftHistory)), xL)
    ensures Tick(yR, HistoryAt(a, RightHistory)) == Step(old(SlotsOf(a)), old(HistoryAt(a, RightHistory)), xR)
    ensures SlotsOf(a) == old(SlotsOf(a))
  {
    yL := a[2] * xL + a[3] * a[7] + a[4] * a[8] - a[5] * a[9] - a[6] * a[10];
    a[8] := a[7];
    a[7] := xL;
    a[10] := a[9];
    a[9] := yL;
    yR := a[2] * xR + a[3] * a[11] + a[4] * a[12] - a[5] * a[13] - a[6] * a[14];
    a[12] := a[11];
    a[11] := xR;
    a[14] := a[13];
    a[13] := yR;
  }

  class SlamityProcessor {
    // Mackity state
    var mackIirSampleAL: real
    var mackIirSampleBL: real
    var mackIirSampleAR: real
    var mackIirSampleBR: real
    const mackBiquadA: array<real>
    const mackBiquadB: array<real>

    // DrumSlam state: the nine memories of each channel (iirSampleA-H and
    // lastSample) as one record per channel, and the shared flip
    var drumL: DrumLane
    var drumR: DrumLane
    var drumFpFlip: bool

    // dither state
    var fpdL: bv32
    var fpdR: bv32

    // meter levels, published once per block
    var vuMackInTrim: real
    var vuMackOutPad: real
    var vuDrumDrive: real
    var vuDrumOutput: real
    var vuMainOutput: real

    /** Two distinct arrays of 15 slots. */
    predicate Valid() {
      mackBiquadA.Length == BiquadSize && mackBiquadB.Length == BiquadSize && mackBiquadA != mackBiquadB
    }

    function MackLaneL(): MackLane
      reads this`mackIirSampleAL, this`mackIirSampleBL, mackBiquadA, mackBiquadB
      requires Valid()
    {
      MackLane(mackIirSampleAL, mackIirSampleBL, HistoryAt(mackBiquadA, LeftHistory), HistoryAt(mackBiquadB, LeftHistory))
    }

    function MackLaneR(): MackLane
      reads this`mackIirSampleAR, this`mackIirSampleBR, mackBiquadA, mackBiquadB
      requires Valid()
    {
      MackLane(mackIirSampleAR, mackIirSampleBR, HistoryAt(mackBiquadA, RightHistory), HistoryAt(mackBiquadB, RightHistory))
    }

    /** All per-sample state as a value. */
    function CoreState(): Core
      reads this`mackIirSampleAL, this`mackIirSampleBL, this`mackIirSampleAR, this`mackIirSampleBR
      reads this`drumL, this`drumR, this`drumFpFlip, this`fpdL, this`fpdR, mackBiquadA, mackBiquadB
      requires Valid()
    {
      Core(MackLaneL(), MackLaneR(), drumL, drumR, drumFpFlip, fpdL, fpdR)
    }

    function MetersState(): Meters
      reads this`vuMackInTrim, this`vuMackOutPad, this`vuDrumDrive, this`vuDrumOutput, this`vuMainOutput
    {
      Meters(vuMackInTrim, vuMackOutPad, vuDrumDrive, vuDrumOutput, vuMainOutput)
    }

    /** The member initialisers: every memory and slot 0, the flip true,
        both dither states 1, the meters 0. */
    constructor()
      ensures Valid() && fresh(mackBiquadA) && fresh(mackBiquadB)
      ensures CoreState() == Core(QuietMack, QuietMack, QuietDrum, QuietDrum, true, 1, 1)
      ensures mackBiquadA[..] == seq(BiquadSize, _ => 0.0) && mackBiquadB[..] == seq(BiquadSize, _ => 0.0)
      ensures MetersState() == QuietMeters
    {
      mackIirSampleAL, mackIirSampleBL, mackIirSampleAR, mackIirSampleBR := 0.0, 0.0, 0.0, 0.0;
      mackBiquadA := new real[BiquadSize](_ => 0.0);
      mackBiquadB := new real[BiquadSize](_ => 0.0);
      drumL, drumR := QuietDrum, QuietDrum;
      drumFpFlip := true;
      fpdL, fpdR := 1, 1;
      vuMackInTrim, vuMackOutPad, vuDrumDrive, vuDrumOutput, vuMainOutput := 0.0, 0.0, 0.0, 0.0, 0.0;
    }

    /** The Mackity part of the reset: the four one-pole memories and
        every slot of both lowpass arrays to 0. */
    method ResetMackity()
      requires Valid()
      modifies this`mackIirSampleAL, this`mackIirSampleBL, this`mackIirSampleAR, this`mackIirSampleBR
      modifies mackBiquadA, mackBiquadB
      ensures MackLaneL() == QuietMack && MackLaneR() == QuietMack
      ensures forall j | 0 <= j < BiquadSize :: mackBiquadA[j] == 0.0 && mackBiquadB[j] == 0.0
    {
      mackIirSampleAL := 0.0;
      mackIirSampleBL := 0.0;
      mackIirSampleAR := 0.0;
      mackIirSampleBR := 0.0;
      Zero(mackBiquadA);
      Zero(mackBiquadB);
      assert HistoryAt(mackBiquadA, LeftHistory) == QuietHistory && HistoryAt(mackBiquadA, RightHistory) == QuietHistory;
      assert HistoryAt(mackBiquadB, LeftHistory) == QuietHistory && HistoryAt(mackBiquadB, RightHistory) == QuietHistory;
    }

    /** The dither seeding of prepareToPlay, from successive results of
        rand(): the left state from the first non-zero draw, the right one
        from the next non-zero draw after it. Both end at least SeedFloor. */
    method SeedDither(draws: seq<bv32>) returns (seedL: nat, seedR: nat)
      requires forall i | 0 <= i < |draws| :: draws[i] <= RandMax
      requires exists i, j | 0 <= i < j < |draws| :: draws[i] != 0 && draws[j] != 0
      modifies this`fpdL, this`fpdR
      ensures seedL < seedR < |draws|
      ensures draws[seedL] != 0 && fpdL == Scramble(draws[seedL]) && fpdL >= SeedFloor
      ensures draws[seedR] != 0 && fpdR == Scramble(draws[seedR]) && fpdR >= SeedFloor
      ensures forall i | 0 <= i < seedR && i != seedL :: draws[i] == 0
    {
      var nextL: nat;
      fpdL, nextL := Seed(draws, 0);
      seedL := nextL - 1;
      assert exists j | nextL <= j < |draws| :: draws[j] != 0 by {
        var i, j :| 0 <= i < j < |draws| && draws[i] != 0 && draws[j] != 0;
        assert seedL <= i;
      }
      var nextR: nat;
      fpdR, nextR := Seed(draws, nextL);
      seedR := nextR - 1;
    }

    /** prepareToPlay: every memory and both lowpass arrays to 0, the flip
        to true, then the dither seeding. The meters are not touched. */
    method PrepareToPlay(draws: seq<bv32>) returns (seedL: nat, seedR: nat)
      requires Valid()
      requires forall i | 0 <= i < |draws| :: draws[i] <= RandMax
      requires exists i, j | 0 <= i < j < |draws| :: draws[i] != 0 && draws[j] != 0
      modifies this, mackBiquadA, mackBiquadB
      ensures Valid()
      ensures CoreState() == Core(QuietMack, QuietMack, QuietDrum, QuietDrum, true, fpdL, fpdR)
      ensures forall j | 0 <= j < BiquadSize :: mackBiquadA[j] == 0.0 && mackBiquadB[j] == 0.0
      ensures seedL < seedR < |draws|
      ensures draws[seedL] != 0 && fpdL == Scramble(draws[seedL]) && fpdL >= SeedFloor
      ensures draws[seedR] != 0 && fpdR == Scramble(draws[seedR]) && fpdR >= SeedFloor
      ensures forall i | 0 <= i < seedR && i != seedL :: draws[i] == 0
      ensures MetersState() == old(MetersState())
    {
      ResetMackity();
      drumL, drumR := QuietDrum, QuietDrum;
      drumFpFlip := true;
      seedL, seedR := SeedDither(draws);
    }

    /** The Mackity lambda on the object: the four one-pole memories and
        both lowpass histories advance as MackStage says; the coefficient
        slots and the DrumSlam and dither state are left alone. */
    method ProcessMackity(k: MackCoeffs, sL: real, sR: real) returns (outL: real, outR: real, trimEnergy: real, padEnergy: real)
      requires Valid() && SlotsOf(mackBiquadA) == k.biquadA && SlotsOf(mackBiquadB) == k.biquadB
      modifies this`mackIirSampleAL, this`mackIirSampleBL, this`mackIirSampleAR, this`mackIirSampleBR
      modifies mackBiquadA, mackBiquadB
      ensures SlotsOf(mackBiquadA) == k.biquadA && SlotsOf(mackBiquadB) == k.biquadB
      ensures var s := MackStage(k, old(CoreState()), sL, sR);
        && CoreState() == s.core && outL == s.l && outR == s.r
        && trimEnergy == s.energyA && padEnergy == s.energyB
    {
      var dryL, dryR := sL, sR;
      var l, r := sL, sR;
      mackIirSampleAL := OnePole(Flush(mackIirSampleAL), l, k.iirAmountA);
      l := l - mackIirSampleAL;
      mackIirSampleAR := OnePole(Flush(mackIirSampleAR), r, k.iirAmountA);
      r := r - mackIirSampleAR;
      l, r := Gain(l, k.inTrim), Gain(r, k.inTrim);
      trimEnergy := Energy(l, r);
      l, r := FilterStereo(mackBiquadA, l, r);
      l, r := SoftClip(l), SoftClip(r);
      l, r := FilterStereo(mackBiquadB, l, r);
      mackIirSampleBL := OnePole(Flush(mackIirSampleBL), l, k.iirAmountB);
      l := l - mackIirSampleBL;
      mackIirSampleBR := OnePole(Flush(mackIirSampleBR), r, k.iirAmountB);
      r := r - mackIirSampleBR;
      l, r := Gain(l, k.outPad), Gain(r, k.outPad);
      padEnergy := Energy(l, r);
      outL, outR := Mix(l, dryL, k.wet), Mix(r, dryR, k.wet);
    }

    /** The DrumSlam lambda on the object: drive, the band split on the
        cascade pair the flip selects (both channels), the flip negated,
        the band shapers with the mid memory updated, recombination and
        dry/wet. The Mackity and dither state are left alone. */
    method ProcessDrumSlam(k: DrumCoeffs, sin: real -> real, sL: real, sR: real) returns (outL: real, outR: real, driveEnergy: real, outEnergy: real)
      requires Valid() && k.drive != 0.0
      modifies this`drumL, this`drumR, this`drumFpFlip
      ensures var s := DrumStage(k, sin, old(CoreState()), sL, sR);
        && CoreState() == s.core && outL == s.l && outR == s.r
        && driveEnergy == s.energyA && outEnergy == s.energyB
    {
      var dryL, dryR := sL, sR;
      var l, r := Drive(sL, k), Drive(sR, k);
      driveEnergy := Energy(l, r);
      var lowL, midL, highL, dl := SplitLane(k, drumL, drumFpFlip, l);
      var lowR, midR, highR, dr := SplitLane(k, drumR, drumFpFlip, r);
      drumFpFlip := !drumFpFlip;
      midL, midR := Drive(midL, k), Drive(midR, k);
      var shapedMidL := MidShape(midL, dl.last, k.drive, sin);
      dl := dl.(last := midL);
      var shapedMidR := MidShape(midR, dr.last, k.drive, sin);
      dr := dr.(last := midR);
      l := Recombine(LowShape(lowL), shapedMidL, HighShape(highL), k.drive, k.out);
      r := Recombine(LowShape(lowR), shapedMidR, HighShape(highR), k.drive, k.out);
      outEnergy := Energy(l, r);
      outL, outR := Mix(l, dryL, k.wet), Mix(r, dryR, k.wet);
      drumL, drumR := dl, dr;
    }

    /** One iteration of the sample loop on the object: the denormal
        guard with the current dither states, both stages in the selected
        order, the main gain and dry/wet, then for each channel the
        exponent of the sample, one generator step and the dither term. */
    method ProcessFrame(c: Coeffs, lib: Libm, inL: real, inR: real) returns (outL: real, outR: real, taps: Taps)
      requires Valid() && c.drum.drive != 0.0
      requires SlotsOf(mackBiquadA) == c.mack.biquadA && SlotsOf(mackBiquadB) == c.mack.biquadB
      modifies this`mackIirSampleAL, this`mackIirSampleBL, this`mackIirSampleAR, this`mackIirSampleBR
      modifies this`drumL, this`drumR, this`drumFpFlip, this`fpdL, this`fpdR
      modifies mackBiquadA, mackBiquadB
      ensures SlotsOf(mackBiquadA) == c.mack.biquadA && SlotsOf(mackBiquadB) == c.mack.biquadB
      ensures var f := Frame(c, lib, old(CoreState()), inL, inR);
        && CoreState() == f.core && outL == f.outL && outR == f.outR && taps == f.taps
    {
      ghost var st := CoreState();
      var l0, r0 := Guard(inL, fpdL), Guard(inR, fpdR);
      var sL, sR, stageTaps := ProcessRoute(c, lib.sin, l0, r0);
      var l, r, main := MainStage(c, sL, sR, l0, r0);
      taps := stageTaps.(main := main);
      var exponL, exponR := lib.frexpExp(l), lib.frexpExp(r);
      StepDither();
      outL := l + DitherTerm(fpdL, exponL, lib.pow2);
      outR := r + DitherTerm(fpdR, exponR, lib.pow2);
      ChannelOutIs(c, lib, sL, l0, st.fpdL, l, outL);
      ChannelOutIs(c, lib, sR, r0, st.fpdR, r, outR);
    }

    /** The main stage's result dithered is the channel output. */
    static lemma ChannelOutIs(c: Coeffs, lib: Libm, s: real, dry: real, fpd: bv32, l: real, out: real)
      requires l == MainOut(c, s, dry)
      requires out == l + DitherTerm(Xorshift(fpd), lib.frexpExp(l), lib.pow2)
      ensures out == ChannelOut(c, lib, s, dry, fpd)
    {
    }

    /** Both stage lambdas in the order the chain-order switch selects. */
    method ProcessRoute(c: Coeffs, sin: real -> real, inL: real, inR: real) returns (outL: real, outR: real, taps: Taps)
      requires Valid() && c.drum.drive != 0.0
      requires SlotsOf(mackBiquadA) == c.mack.biquadA && SlotsOf(mackBiquadB) == c.mack.biquadB
      modifies this`mackIirSampleAL, this`mackIirSampleBL, this`mackIirSampleAR, this`mackIirSampleBR
      modifies this`drumL, this`drumR, this`drumFpFlip
      modifies mackBiquadA, mackBiquadB
      ensures SlotsOf(mackBiquadA) == c.mack.biquadA && SlotsOf(mackBiquadB) == c.mack.biquadB
      ensures var f := Route(c, sin, old(CoreState()), inL, inR);
        && CoreState() == f.core && outL == f.outL && outR == f.outR && taps == f.taps
    {
      var trim, pad, drive, drumOut;
      if c.mackFirst {
        outL, outR, trim, pad := ProcessMackity(c.mack, inL, inR);
        outL, outR, drive, drumOut := ProcessDrumSlam(c.drum, sin, outL, outR);
      } else {
        outL, outR, drive, drumOut := ProcessDrumSlam(c.drum, sin, inL, inR);
        outL, outR, trim, pad := ProcessMackity(c.mack, outL, outR);
      }
      taps := Taps(trim, pad, drive, drumOut, 0.0);
    }

    /** The main output gain, always applied, then the main dry/wet
        against the guarded input, and the main meter energy. */
    static method MainStage(c: Coeffs, sL: real, sR: real, dryL: real, dryR: real) returns (outL: real, outR: real, energy: real)
      ensures outL == MainOut(c, sL, dryL) && outR == MainOut(c, sR, dryR)
      ensures energy == Energy(outL, outR)
    {
      outL, outR := sL * c.mainOutGain, sR * c.mainOutGain;
      outL, outR := Mix(outL, dryL, c.mainWet), Mix(outR, dryR, c.mainWet);
      energy := Energy(outL, outR);
    }

    /** The generator step `x ^= x << 13; x ^= x >> 17; x ^= x << 5` on
        both dither states. */
    method StepDither()
      requires Valid()
      modifies this`fpdL, this`fpdR
      ensures CoreState() == old(CoreState()).(fpdL := Xorshift(old(fpdL)), fpdR := Xorshift(old(fpdR)))
      ensures SlotsOf(mackBiquadA) == old(SlotsOf(mackBiquadA)) && SlotsOf(mackBiquadB) == old(SlotsOf(mackBiquadB))
    {
      fpdL := ShiftXor13(fpdL);
      fpdL := ShiftXor17(fpdL);
      fpdL := ShiftXor5(fpdL);
      fpdR := ShiftXor13(fpdR);
      fpdR := ShiftXor17(fpdR);
      fpdR := ShiftXor5(fpdR);
    }

    /** Sample i of both buffers through one frame, written back in place. */
    method FrameAt(c: Coeffs, lib: Libm, ghost step: (Core, real, real) -> FrameOut, channelL: array<real>, channelR: array<real>, i: nat) returns (taps: Taps)
      requires Valid() && c.drum.drive != 0.0
      requires StepIsFrame(c, lib, step)
      requires SlotsOf(mackBiquadA) == c.mack.biquadA && SlotsOf(mackBiquadB) == c.mack.biquadB
      requires i < channelL.Length == channelR.Length && channelL != channelR
      requires channelL != mackBiquadA && channelL != mackBiquadB
      requires channelR != mackBiquadA && channelR != mackBiquadB
      modifies this`mackIirSampleAL, this`mackIirSampleBL, this`mackIirSampleAR, this`mackIirSampleBR
      modifies this`drumL, this`drumR, this`drumFpFlip, this`fpdL, this`fpdR
      modifies mackBiquadA, mackBiquadB, channelL, channelR
      ensures SlotsOf(mackBiquadA) == c.mack.biquadA && SlotsOf(mackBiquadB) == c.mack.biquadB
      ensures var f := step(old(CoreState()), old(channelL[i]), old(channelR[i]));
        && CoreState() == f.core && channelL[i] == f.outL && channelR[i] == f.outR && taps == f.taps
      ensures forall j | 0 <= j < channelL.Length && j != i :: channelL[j] == old(channelL[j]) && channelR[j] == old(channelR[j])
    {
      var outL, outR;
      outL, outR, taps := ProcessFrame(c, lib, channelL[i], channelR[i]);
      channelL[i] := outL;
      channelR[i] := outR;
    }

    /** The per-sample loop over the two channel buffers, overwriting each
        sample with its output and summing the meter energies: the buffers
        and the state end as RunBlock says. */
    method SampleLoop(c: Coeffs, lib: Libm, ghost step: (Core, real, real) -> FrameOut, channelL: array<real>, channelR: array<real>) returns (acc: Taps)
      requires Valid() && c.drum.drive != 0.0
      requires StepIsFrame(c, lib, step)
      requires SlotsOf(mackBiquadA) == c.mack.biquadA && SlotsOf(mackBiquadB) == c.mack.biquadB
      requires channelL.Length == channelR.Length && channelL != channelR
      requires channelL != mackBiquadA && channelL != mackBiquadB
      requires channelR != mackBiquadA && channelR != mackBiquadB
      modifies this`mackIirSampleAL, this`mackIirSampleBL, this`mackIirSampleAR, this`mackIirSampleBR
      modifies this`drumL, this`drumR, this`drumFpFlip, this`fpdL, this`fpdR
      modifies mackBiquadA, mackBiquadB, channelL, channelR
      ensures SlotsOf(mackBiquadA) == c.mack.biquadA && SlotsOf(mackBiquadB) == c.mack.biquadB
      ensures var b := RunFrames(step, old(CoreState()), old(channelL[..]), old(channelR[..]));
        && CoreState() == b.core && channelL[..] == b.outL && channelR[..] == b.outR && acc == b.acc
    {
      ghost var core0 := CoreState();
      ghost var inL, inR := channelL[..], channelR[..];
      acc := NoTaps;
      var i := 0;
      while i < channelL.Length
        invariant 0 <= i <= channelL.Length
        invariant SlotsOf(mackBiquadA) == c.mack.biquadA && SlotsOf(mackBiquadB) == c.mack.biquadB
        invariant forall j | i <= j < channelL.Length :: channelL[j] == inL[j] && channelR[j] == inR[j]
        invariant var b := RunFrames(step, core0, inL[..i], inR[..i]);
          && CoreState() == b.core && acc == b.acc
          && (forall j | 0 <= j < i :: channelL[j] == b.outL[j] && channelR[j] == b.outR[j])
      {
        ghost var prev := RunFrames(step, core0, inL[..i], inR[..i]);
        RunFramesNext(step, core0, inL, inR, i);
        var taps := FrameAt(c, lib, step, channelL, channelR, i);
        acc := AddTaps(acc, taps);
        i := i + 1;
      }
      assert inL[..i] == inL && inR[..i] == inR;
      assert channelL[..] == RunFrames(step, core0, inL, inR).outL;
      assert channelR[..] == RunFrames(step, core0, inL, inR).outR;
    }

    /** The meter stores at the end of a block. */
    method StoreMeters(acc: Taps, n: nat, trimParam: real, sqrt: real -> real)
      requires Valid() && n > 0
      modifies this`vuMackInTrim, this`vuMackOutPad, this`vuDrumDrive, this`vuDrumOutput, this`vuMainOutput
      ensures MetersState() == Finalise(acc, n, trimParam, sqrt)
      ensures CoreState() == old(CoreState())
      ensures SlotsOf(mackBiquadA) == old(SlotsOf(mackBiquadA)) && SlotsOf(mackBiquadB) == old(SlotsOf(mackBiquadB))
    {
      var m := Finalise(acc, n, trimParam, sqrt);
      vuMackInTrim, vuMackOutPad, vuDrumDrive, vuDrumOutput, vuMainOutput :=
        m.mackInTrim, m.mackOutPad, m.drumDrive, m.drumOutput, m.mainOutput;
    }

    /** processBlock on a stereo buffer: an empty block changes nothing;
        otherwise the coefficient slots of both lowpass arrays are
        designed for the sample rate, the sample loop runs, and the
        meters are set from the block's accumulated energies. The block
        is stated as the run of `step`, a step that agrees with the frame
        function of the block's coefficients everywhere (FramesAreBlock
        makes that run RunBlock). */
    method ProcessBlock(channelL: array<real>, channelR: array<real>, p: Params, sr: real, lib: Libm)
      returns (ghost step: (Core, real, real) -> FrameOut)
      requires Valid() && Derivable(sr, lib.tan) && ParamsInRange(p)
      requires channelL.Length == channelR.Length && channelL != channelR
      requires channelL != mackBiquadA && channelL != mackBiquadB
      requires channelR != mackBiquadA && channelR != mackBiquadB
      modifies this, mackBiquadA, mackBiquadB, channelL, channelR
      ensures Valid()
      ensures StepIsFrame(BlockCoeffs(p, sr, lib.tan), lib, step)
      ensures channelL.Length == 0 ==> unchanged(this, mackBiquadA, mackBiquadB)
      ensures channelL.Length > 0 ==>
        var c := BlockCoeffs(p, sr, lib.tan);
        var b := RunFrames(step, old(CoreState()), old(channelL[..]), old(channelR[..]));
        && SlotsOf(mackBiquadA) == c.mack.biquadA && SlotsOf(mackBiquadB) == c.mack.biquadB
        && CoreState() == b.core && channelL[..] == b.outL && channelR[..] == b.outR
        && MetersState() == Finalise(b.acc, channelL.Length, p.mackInTrim, lib.sqrt)
    {
      var n := channelL.Length;
      var c := BlockCoeffs(p, sr, lib.tan);
      FrameStepExists(c, lib);
      step :| StepIsFrame(c, lib, step);
      if n == 0 {
        return;
      }
      DesignInto(mackBiquadA, BiquadCorner / sr, ResonanceA, lib.tan);
      DesignInto(mackBiquadB, BiquadCorner / sr, ResonanceB, lib.tan);
      assert CoreState() == old(CoreState());
      MeteredLoop(c, lib, step, p.mackInTrim, channelL, channelR);
    }

    /** The sample loop of a non-empty block followed by the meter stores. */
    method MeteredLoop(c: Coeffs, lib: Libm, ghost step: (Core, real, real) -> FrameOut, trimParam: real, channelL: array<real>, channelR: array<real>)
      requires Valid() && c.drum.drive != 0.0 && StepIsFrame(c, lib, step)
      requires SlotsOf(mackBiquadA) == c.mack.biquadA && SlotsOf(mackBiquadB) == c.mack.biquadB
      requires 0 < channelL.Length == channelR.Length && channelL != channelR
      requires channelL != mackBiquadA && channelL != mackBiquadB
      requires channelR != mackBiquadA && channelR != mackBiquadB
      modifies this`mackIirSampleAL, this`mackIirSampleBL, this`mackIirSampleAR, this`mackIirSampleBR
      modifies this`drumL, this`drumR, this`drumFpFlip, this`fpdL, this`fpdR
      modifies this`vuMackInTrim, this`vuMackOutPad, this`vuDrumDrive, this`vuDrumOutput, this`vuMainOutput
      modifies mackBiquadA, mackBiquadB, channelL, channelR
      ensures SlotsOf(mackBiquadA) == c.mack.biquadA && SlotsOf(mackBiquadB) == c.mack.biquadB
      ensures var b := RunFrames(step, old(CoreState()), old(channelL[..]), old(channelR[..]));
        && CoreState() == b.core && channelL[..] == b.outL && channelR[..] == b.outR
        && MetersState() == Finalise(b.acc, channelL.Length, trimParam, lib.sqrt)
    {
      var acc := SampleLoop(c, lib, step, channelL, channelR);
      assert CoreState() == RunFrames(step, old(CoreState()), old(channelL[..]), old(channelR[..])).core;
      StoreMeters(acc, channelL.Length, trimParam, lib.sqrt);
    }
  }

  /** The band split of one channel: the lowpass pair (A/B on a set flip,
      C/D otherwise) gives the low band, the highpass pair (E/F or G/H)
      the split point of mid and high; the other pair is left alone. */
  method SplitLane(k: DrumCoeffs, st: DrumLane, flip: bool, x: real) returns (low: real, mid: real, high: real, lane: DrumLane)
    ensures Bands(low, mid, high, lane) == Split(k, st, flip, x)
  {
    lane := st;
    if flip {
      lane := lane.(a := OnePole(lane.a, x, k.iirAmountL));
      lane := lane.(b := OnePole(lane.b, lane.a, k.iirAmountL));
      low := lane.b;
      lane := lane.(e := OnePole(lane.e, x, k.iirAmountH));
      lane := lane.(f := OnePole(lane.f, lane.e, k.iirAmountH));
      mid := lane.f - lane.b;
      high := x - lane.f;
    } else {
      lane := lane.(c := OnePole(lane.c, x, k.iirAmountL));
      lane := lane.(d := OnePole(lane.d, lane.c, k.iirAmountL));
      low := lane.d;
      lane := lane.(g := OnePole(lane.g, x, k.iirAmountH));
      lane := lane.(h := OnePole(lane.h, lane.g, k.iirAmountH));
      mid := lane.h - lane.d;
      high := x - lane.h;
    }
  }

  /** `std::fill` with 0.0. */
  method Zero(a: array<real>)
    modifies a
    ensures forall j | 0 <= j < a.Length :: a[j] == 0.0
  {
    var i := 0;
    while i < a.Length
      invariant 0 <= i <= a.Length
      invariant forall j | 0 <= j < i :: a[j] == 0.0
    {
      a[i] := 0.0;
      i := i + 1;
    }
  }
}
