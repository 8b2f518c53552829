/** The per-block pipeline as values: the block coefficients derived from
    the parameter snapshot, one stereo frame (denormal guard, the two
    stages in the selected order, main gain and dry/wet, meter energies,
    dither), a whole block of frames, and the meter finalisation. */
module Chain {
  import opened Numerics
  import opened Biquad
  import opened Mackity
  import opened DrumSlam
  import opened Dither

  /** The nine parameters, read once per block. */
  datatype Params = Params(
    mackInTrim: real, mackOutPad: real, mackDryWet: real,
    drumDrive: real, drumOutput: real, drumDryWet: real,
    chainOrder: real, mainOutput: real, mainDryWet: real)

  /** Every parameter is declared with the range [0, 1]. */
  predicate ParamsInRange(p: Params) {
    && 0.0 <= p.mackInTrim <= 1.0 && 0.0 <= p.mackOutPad <= 1.0 && 0.0 <= p.mackDryWet <= 1.0
    && 0.0 <= p.drumDrive <= 1.0 && 0.0 <= p.drumOutput <= 1.0 && 0.0 <= p.drumDryWet <= 1.0
    && 0.0 <= p.chainOrder <= 1.0 && 0.0 <= p.mainOutput <= 1.0 && 0.0 <= p.mainDryWet <= 1.0
  }

  /** Everything the sample loop reads, frozen for the whole block. */
  datatype Coeffs = Coeffs(mack: MackCoeffs, drum: DrumCoeffs, mainOutGain: real, mainWet: real, mackFirst: bool)

  const BiquadCorner: real := 19160.0
  const ResonanceA: real := 0.431684981684982
  const ResonanceB: real := 1.1582298
  const SubsonicBase: real := 0.001860867
  const DcBlockBase: real := 0.000287496
  const LowBandBase: real := 0.0819
  const HighBandBase: real := 0.377933067

  /** The block can be derived: a positive sample rate, and both lowpass
      designs with a non-zero normaliser. */
  predicate Derivable(sr: real, tan: real -> real) {
    sr > 0.0 && Designable(BiquadCorner / sr, ResonanceA, tan) && Designable(BiquadCorner / sr, ResonanceB, tan)
  }

  /** The coefficient block that runs before the sample loop. */
  function BlockCoeffs(p: Params, sr: real, tan: real -> real): (c: Coeffs)
    requires Derivable(sr, tan)
    ensures c.mackFirst <==> p.chainOrder < 0.5
    // the smoothing coefficients scale with 44100/sr: constant time constants
    ensures c.mack.iirAmountA * sr == SubsonicBase * 44100.0 && c.mack.iirAmountB * sr == DcBlockBase * 44100.0
    ensures c.drum.iirAmountL * sr == LowBandBase * 44100.0 && c.drum.iirAmountH * sr == HighBandBase * 44100.0
    // slots 0-6 of both lowpass arrays
    ensures c.mack.biquadA.freq == BiquadCorner / sr && c.mack.biquadB.freq == BiquadCorner / sr
    ensures c.mack.biquadA.reso == ResonanceA && c.mack.biquadB.reso == ResonanceB
    ensures c.mack.biquadA.b1 == 2.0 * c.mack.biquadA.b0 && c.mack.biquadA.b2 == c.mack.biquadA.b0
    ensures c.mack.biquadB.b1 == 2.0 * c.mack.biquadB.b0 && c.mack.biquadB.b2 == c.mack.biquadB.b0
    // the trim is the parameter scaled by 10 and squared; drive is in [1, 4]
    ensures p.mackInTrim >= 0.0 ==> (c.mack.inTrim == 1.0 <==> p.mackInTrim == 0.1)
    ensures ParamsInRange(p) ==> 0.0 <= c.mack.inTrim <= 100.0 && 1.0 <= c.drum.drive <= 4.0
  {
    var overallscale := 1.0 / 44100.0 * sr;
    var trim := p.mackInTrim * 10.0;
    assert p.mackInTrim >= 0.0 ==> (trim * trim == 1.0 <==> p.mackInTrim == 0.1) by {
      if p.mackInTrim >= 0.0 { TrimIsOne(p.mackInTrim); }
    }
    assert ParamsInRange(p) ==> trim * trim <= 100.0 by {
      if ParamsInRange(p) {
        ScaleShrinks(trim, p.mackInTrim);
        MulNonNeg(10.0 - trim, trim);
        assert trim * trim == 10.0 * trim - (10.0 - trim) * trim;
      }
    }
    SquareNonNeg(trim);
    Coeffs(
      MackCoeffs(trim * trim, p.mackOutPad, p.mackDryWet,
        SubsonicBase / overallscale, DcBlockBase / overallscale,
        Design(BiquadCorner / sr, ResonanceA, tan), Design(BiquadCorner / sr, ResonanceB, tan)),
      DrumCoeffs(LowBandBase / overallscale, HighBandBase / overallscale,
        p.drumDrive * 3.0 + 1.0, p.drumOutput, p.drumDryWet),
      p.mainOutput, p.mainDryWet, p.chainOrder < 0.5)
  }

  /** (10 p)^2 == 1 exactly when p == 0.1, for p >= 0. */
  lemma TrimIsOne(p: real)
    requires p >= 0.0
    ensures (p * 10.0) * (p * 10.0) == 1.0 <==> p == 0.1
  {
    var t := p * 10.0;
    if t * t == 1.0 {
      if t < 1.0 {
        ScaleShrinks(t, t);
        MulNonNeg(1.0 - t, t);
        assert t * t == t - (1.0 - t) * t;
        assert t * t <= t;
      } else if t > 1.0 {
        MulNonNeg(t - 1.0, t);
        assert t * t == t + (t - 1.0) * t;
      }
    }
  }

  /** All persistent per-sample state, both channels. */
  datatype Core = Core(mackL: MackLane, mackR: MackLane, drumL: DrumLane, drumR: DrumLane, flip: bool, fpdL: bv32, fpdR: bv32)

  /** One stage applied to both channels, with the energies of its two
      meter taps. */
  datatype Stage = Stage(l: real, r: real, core: Core, energyA: real, energyB: real)

  /** The five meter energies (trim, pad, drive, drum output, main). */
  datatype Taps = Taps(trim: real, pad: real, drive: real, drumOut: real, main: real)

  predicate TapsNonNegative(t: Taps) {
    t.trim >= 0.0 && t.pad >= 0.0 && t.drive >= 0.0 && t.drumOut >= 0.0 && t.main >= 0.0
  }

  /** `sL*sL + sR*sR`, what each accumulator adds per frame. */
  function Energy(l: real, r: real): (e: real)
    ensures e >= 0.0
  {
    SquareNonNeg(l);
    SquareNonNeg(r);
    l * l + r * r
  }

  /** The Mackity lambda: both channels through the strip; it touches
      only the Mackity memories. */
  function MackStage(k: MackCoeffs, st: Core, l: real, r: real): (s: Stage)
    ensures s.core.drumL == st.drumL && s.core.drumR == st.drumR && s.core.flip == st.flip
    ensures s.core.fpdL == st.fpdL && s.core.fpdR == st.fpdR
    ensures s.energyA >= 0.0 && s.energyB >= 0.0
  {
    var ml := MackityStep(k, st.mackL, l);
    var mr := MackityStep(k, st.mackR, r);
    Stage(ml.out, mr.out, st.(mackL := ml.lane, mackR := mr.lane),
      Energy(ml.trimTap, mr.trimTap), Energy(ml.padTap, mr.padTap))
  }

  /** The DrumSlam lambda: both channels share the flip, which is negated
      exactly once; it touches only the DrumSlam memories and the flip. */
  function DrumStage(k: DrumCoeffs, sin: real -> real, st: Core, l: real, r: real): (s: Stage)
    requires k.drive != 0.0
    ensures s.core.flip == !st.flip
    ensures s.core.mackL == st.mackL && s.core.mackR == st.mackR
    ensures s.core.fpdL == st.fpdL && s.core.fpdR == st.fpdR
    ensures s.energyA >= 0.0 && s.energyB >= 0.0
  {
    var dl := DrumStep(k, st.drumL, st.flip, l, sin);
    var dr := DrumStep(k, st.drumR, st.flip, r, sin);
    Stage(dl.out, dr.out, st.(drumL := dl.lane, drumR := dr.lane, flip := !st.flip),
      Energy(dl.driveTap, dr.driveTap), Energy(dl.outTap, dr.outTap))
  }

  /** One frame: output samples, new state and the frame's meter energies. */
  datatype FrameOut = FrameOut(core: Core, outL: real, outR: real, taps: Taps)

  /** Both stages in the selected order: the new state, the two stage
      outputs and the four stage taps (the main tap is still 0). */
  function Route(c: Coeffs, sin: real -> real, st: Core, l: real, r: real): (f: FrameOut)
    requires c.drum.drive != 0.0
    ensures f.core.flip == !st.flip
    ensures f.core.fpdL == st.fpdL && f.core.fpdR == st.fpdR
    ensures TapsNonNegative(f.taps) && f.taps.main == 0.0
  {
    if c.mackFirst then
      var m := MackStage(c.mack, st, l, r);
      var d := DrumStage(c.drum, sin, m.core, m.l, m.r);
      FrameOut(d.core, d.l, d.r, Taps(m.energyA, m.energyB, d.energyA, d.energyB, 0.0))
    else
      var d := DrumStage(c.drum, sin, st, l, r);
      var m := MackStage(c.mack, d.core, d.l, d.r);
      FrameOut(m.core, m.l, m.r, Taps(m.energyA, m.energyB, d.energyA, d.energyB, 0.0))
  }

  /** The main gain (always applied) and the main dry/wet against the
      guarded input. */
  function MainOut(c: Coeffs, s: real, dry: real): (r: real)
    // fully wet: the chain output scaled by the main gain
    ensures c.mainWet == 1.0 ==> r == s * c.mainOutGain
    // fully dry: the guarded input, whatever the gain
    ensures c.mainWet == 0.0 ==> r == dry
    // in between: from the dry sample towards the scaled chain output by
    // exactly the wet fraction
    ensures r - dry == (s * c.mainOutGain - dry) * c.mainWet
  {
    MixDistance(s * c.mainOutGain, dry, c.mainWet);
    Mix(s * c.mainOutGain, dry, c.mainWet)
  }

  /** One iteration of the sample loop. */
  function Frame(c: Coeffs, lib: Libm, st: Core, inL: real, inR: real): (f: FrameOut)
    requires c.drum.drive != 0.0
    // the flip is negated once per frame for both channels together
    ensures f.core.flip == !st.flip
    // each dither state takes one generator step
    ensures f.core.fpdL == Xorshift(st.fpdL) && f.core.fpdR == Xorshift(st.fpdR)
    ensures TapsNonNegative(f.taps)
  {
    var l0 := Guard(inL, st.fpdL);
    var r0 := Guard(inR, st.fpdR);
    var routed := Route(c, lib.sin, st, l0, r0);
    var l := MainOut(c, routed.outL, l0);
    var r := MainOut(c, routed.outR, r0);
    FrameOut(routed.core.(fpdL := Xorshift(st.fpdL), fpdR := Xorshift(st.fpdR)),
      ChannelOut(c, lib, routed.outL, l0, st.fpdL),
      ChannelOut(c, lib, routed.outR, r0, st.fpdR),
      routed.taps.(main := Energy(l, r)))
  }

  /** One output channel: the main stage, then the dither of its result
      drawn from the channel's advanced generator state. */
  function ChannelOut(c: Coeffs, lib: Libm, s: real, dry: real, fpd: bv32): (r: real)
    // fully wet: the chain output scaled by the main gain, plus its dither
    ensures c.mainWet == 1.0 ==> r == s * c.mainOutGain + DitherTerm(Xorshift(fpd), lib.frexpExp(s * c.mainOutGain), lib.pow2)
    // fully dry: the guarded input plus its dither, whatever the gain
    ensures c.mainWet == 0.0 ==> r == dry + DitherTerm(Xorshift(fpd), lib.frexpExp(dry), lib.pow2)
  {
    var l := MainOut(c, s, dry);
    if c.mainWet == 1.0 then
      DitheredAgree(l, s * c.mainOutGain, fpd, lib);
      l + DitherTerm(Xorshift(fpd), lib.frexpExp(l), lib.pow2)
    else
      l + DitherTerm(Xorshift(fpd), lib.frexpExp(l), lib.pow2)
  }

  /** Equal samples receive equal dither. */
  lemma DitheredAgree(a: real, b: real, fpd: bv32, lib: Libm)
    requires a == b
    ensures a + DitherTerm(Xorshift(fpd), lib.frexpExp(a), lib.pow2) == b + DitherTerm(Xorshift(fpd), lib.frexpExp(b), lib.pow2)
  {
  }

  /** The accumulators after adding one frame's energies: the empty
      accumulator adds nothing, and non-negative ones stay non-negative. */
  function AddTaps(a: Taps, b: Taps): (r: Taps)
    ensures a == NoTaps ==> r == b
    ensures TapsNonNegative(a) && TapsNonNegative(b) ==> TapsNonNegative(r)
  {
    Taps(a.trim + b.trim, a.pad + b.pad, a.drive + b.drive, a.drumOut + b.drumOut, a.main + b.main)
  }

  const NoTaps: Taps := Taps(0.0, 0.0, 0.0, 0.0, 0.0)

  /** A block: final state, the output samples, and the five accumulators. */
  datatype BlockOut = BlockOut(core: Core, outL: seq<real>, outR: seq<real>, acc: Taps)

  /** Frames applied one after the other, from a start state, to a pair
      of input sequences: the state threads through, the outputs are
      appended and the taps are summed. This is plumbing for the ghost
      step ProcessBlock returns, whose block is stated as the run of that
      step; FramesAreBlock equates the run of any step that agrees with
      Frame with RunBlock. */
  function RunFrames(step: (Core, real, real) -> FrameOut, st: Core, inL: seq<real>, inR: seq<real>): (b: BlockOut)
    requires |inL| == |inR|
    ensures |b.outL| == |inL| && |b.outR| == |inR|
    decreases |inL|
  {
    if |inL| == 0 then BlockOut(st, [], [], NoTaps)
    else
      var n := |inL| - 1;
      var prev := RunFrames(step, st, inL[..n], inR[..n]);
      var f := step(prev.core, inL[n], inR[n]);
      BlockOut(f.core, prev.outL + [f.outL], prev.outR + [f.outR], AddTaps(prev.acc, f.taps))
  }

  /** Running one more frame of the same inputs extends the block by that
      frame's outputs and taps. */
  lemma RunFramesNext(step: (Core, real, real) -> FrameOut, st: Core, inL: seq<real>, inR: seq<real>, i: nat)
    requires |inL| == |inR| && i < |inL|
    ensures var prev := RunFrames(step, st, inL[..i], inR[..i]);
      var f := step(prev.core, inL[i], inR[i]);
      RunFrames(step, st, inL[..i + 1], inR[..i + 1])
        == BlockOut(f.core, prev.outL + [f.outL], prev.outR + [f.outR], AddTaps(prev.acc, f.taps))
  {
    assert inL[..i + 1][..i] == inL[..i] && inR[..i + 1][..i] == inR[..i];
  }

  /** One frame of the block's coefficients, as a step: plumbing that
      names Frame as a function value for RunFrames and the ghost step of
      ProcessBlock. */
  function FrameStep(c: Coeffs, lib: Libm): (step: (Core, real, real) -> FrameOut)
    requires c.drum.drive != 0.0
    ensures forall st, l, r :: step(st, l, r) == Frame(c, lib, st, l, r)
  {
    (st: Core, l: real, r: real) => Frame(c, lib, st, l, r)
  }

  /** The sample loop over a whole block, frame after frame. */
  function RunBlock(c: Coeffs, lib: Libm, st: Core, inL: seq<real>, inR: seq<real>): (b: BlockOut)
    requires c.drum.drive != 0.0
    requires |inL| == |inR|
    ensures |b.outL| == |inL| && |b.outR| == |inR|
    ensures TapsNonNegative(b.acc)
    // the flip is negated once per frame
    ensures b.core.flip == (st.flip != (|inL| % 2 == 1))
    // each dither state takes one generator step per frame
    ensures b.core.fpdL == Iterate(st.fpdL, |inL|) && b.core.fpdR == Iterate(st.fpdR, |inR|)
  {
    var step := FrameStep(c, lib);
    FramesKeepTaps(step, st, inL, inR);
    FramesFlip(step, st, inL, inR);
    FramesDither(step, st, inL, inR);
    RunFrames(step, st, inL, inR)
  }

  /** `step` agrees with the frame function everywhere. */
  ghost predicate StepIsFrame(c: Coeffs, lib: Libm, step: (Core, real, real) -> FrameOut)
    requires c.drum.drive != 0.0
  {
    forall st, l, r {:trigger Frame(c, lib, st, l, r)} :: step(st, l, r) == Frame(c, lib, st, l, r)
  }

  /** Some step agrees with the frame function everywhere; plumbing that
      lets ProcessBlock pick the ghost step it returns. */
  lemma FrameStepExists(c: Coeffs, lib: Libm)
    requires c.drum.drive != 0.0
    ensures exists step :: StepIsFrame(c, lib, step)
  {
    assert StepIsFrame(c, lib, FrameStep(c, lib));
  }

  /** Running any step that agrees with the frame function everywhere is
      running the block. */
  lemma {:induction false} FramesAreBlock(c: Coeffs, lib: Libm, step: (Core, real, real) -> FrameOut, st: Core, inL: seq<real>, inR: seq<real>)
    requires c.drum.drive != 0.0 && |inL| == |inR|
    requires StepIsFrame(c, lib, step)
    ensures RunFrames(step, st, inL, inR) == RunBlock(c, lib, st, inL, inR)
    decreases |inL|
  {
    if |inL| > 0 {
      var n := |inL| - 1;
      FramesAreBlock(c, lib, step, st, inL[..n], inR[..n]);
      var prev := RunFrames(step, st, inL[..n], inR[..n]);
      assert step(prev.core, inL[n], inR[n]) == Frame(c, lib, prev.core, inL[n], inR[n]);
    }
  }

  lemma {:induction false} FramesKeepTaps(step: (Core, real, real) -> FrameOut, st: Core, inL: seq<real>, inR: seq<real>)
    requires |inL| == |inR|
    requires forall s, l, r :: TapsNonNegative(step(s, l, r).taps)
    ensures TapsNonNegative(RunFrames(step, st, inL, inR).acc)
    decreases |inL|
  {
    if |inL| > 0 {
      var n := |inL| - 1;
      FramesKeepTaps(step, st, inL[..n], inR[..n]);
    }
  }

  lemma {:induction false} FramesFlip(step: (Core, real, real) -> FrameOut, st: Core, inL: seq<real>, inR: seq<real>)
    requires |inL| == |inR|
    requires forall s, l, r :: step(s, l, r).core.flip == !s.flip
    ensures RunFrames(step, st, inL, inR).core.flip == (st.flip != (|inL| % 2 == 1))
    decreases |inL|
  {
    if |inL| > 0 {
      var n := |inL| - 1;
      FramesFlip(step, st, inL[..n], inR[..n]);
    }
  }

  lemma {:induction false} FramesDither(step: (Core, real, real) -> FrameOut, st: Core, inL: seq<real>, inR: seq<real>)
    requires |inL| == |inR|
    requires forall s, l, r :: step(s, l, r).core.fpdL == Xorshift(s.fpdL) && step(s, l, r).core.fpdR == Xorshift(s.fpdR)
    ensures RunFrames(step, st, inL, inR).core.fpdL == Iterate(st.fpdL, |inL|)
    ensures RunFrames(step, st, inL, inR).core.fpdR == Iterate(st.fpdR, |inR|)
    decreases |inL|
  {
    if |inL| > 0 {
      var n := |inL| - 1;
      FramesDither(step, st, inL[..n], inR[..n]);
    }
  }

  /** With the Mackity and DrumSlam mixes fully dry and the main mix
      fully wet, each channel of a frame is the channel output of its
      guarded input: by ChannelOut's wet case, that input times the main
      output gain (whatever the gain) plus the dither of the product,
      drawn from the advanced generator state. */
  lemma FrameBypass(c: Coeffs, lib: Libm, st: Core, inL: real, inR: real)
    requires c.drum.drive != 0.0
    requires c.mack.wet == 0.0 && c.drum.wet == 0.0 && c.mainWet == 1.0
    ensures Frame(c, lib, st, inL, inR).outL == ChannelOut(c, lib, Guard(inL, st.fpdL), Guard(inL, st.fpdL), st.fpdL)
    ensures Frame(c, lib, st, inL, inR).outR == ChannelOut(c, lib, Guard(inR, st.fpdR), Guard(inR, st.fpdR), st.fpdR)
  {
    RouteBypass(c, lib.sin, st, Guard(inL, st.fpdL), Guard(inR, st.fpdR));
  }

  /** With both stage mixes fully dry the routed chain outputs its input,
      in either order. */
  lemma RouteBypass(c: Coeffs, sin: real -> real, st: Core, l: real, r: real)
    requires c.drum.drive != 0.0 && c.mack.wet == 0.0 && c.drum.wet == 0.0
    ensures Route(c, sin, st, l, r).outL == l && Route(c, sin, st, l, r).outR == r
  {
    if c.mackFirst {
      var m := MackStage(c.mack, st, l, r);
      DrumStepDryWet(c.drum, m.core.drumL, m.core.flip, m.l, sin);
      DrumStepDryWet(c.drum, m.core.drumR, m.core.flip, m.r, sin);
    } else {
      DrumStepDryWet(c.drum, st.drumL, st.flip, l, sin);
      DrumStepDryWet(c.drum, st.drumR, st.flip, r, sin);
    }
  }

  /** A fully dry main mix outputs the guarded input plus dither, whatever
      the stages and the main gain do. */
  lemma FrameDry(c: Coeffs, lib: Libm, st: Core, inL: real, inR: real)
    requires c.drum.drive != 0.0 && c.mainWet == 0.0
    ensures var l0, r0 := Guard(inL, st.fpdL), Guard(inR, st.fpdR);
      && Frame(c, lib, st, inL, inR).outL == l0 + DitherTerm(Xorshift(st.fpdL), lib.frexpExp(l0), lib.pow2)
      && Frame(c, lib, st, inL, inR).outR == r0 + DitherTerm(Xorshift(st.fpdR), lib.frexpExp(r0), lib.pow2)
  {
  }

  /** The processing is causal: the first m output samples depend only on
      the first m input samples. */
  lemma {:induction false} FramesCausal(step: (Core, real, real) -> FrameOut, st: Core, inL: seq<real>, inR: seq<real>, m: nat)
    requires |inL| == |inR| && m <= |inL|
    ensures RunFrames(step, st, inL[..m], inR[..m]).outL == RunFrames(step, st, inL, inR).outL[..m]
    ensures RunFrames(step, st, inL[..m], inR[..m]).outR == RunFrames(step, st, inL, inR).outR[..m]
    decreases |inL|
  {
    if m == |inL| {
      assert inL[..m] == inL && inR[..m] == inR;
    } else {
      var n := |inL| - 1;
      assert inL[..n][..m] == inL[..m] && inR[..n][..m] == inR[..m];
      FramesCausal(step, st, inL[..n], inR[..n], m);
      var prev := RunFrames(step, st, inL[..n], inR[..n]);
      var f := step(prev.core, inL[n], inR[n]);
      assert (prev.outL + [f.outL])[..m] == prev.outL[..m];
      assert (prev.outR + [f.outR])[..m] == prev.outR[..m];
    }
  }

  lemma RunBlockCausal(c: Coeffs, lib: Libm, st: Core, inL: seq<real>, inR: seq<real>, m: nat)
    requires c.drum.drive != 0.0 && |inL| == |inR| && m <= |inL|
    ensures RunBlock(c, lib, st, inL[..m], inR[..m]).outL == RunBlock(c, lib, st, inL, inR).outL[..m]
    ensures RunBlock(c, lib, st, inL[..m], inR[..m]).outR == RunBlock(c, lib, st, inL, inR).outR[..m]
  {
    FramesCausal(FrameStep(c, lib), st, inL, inR, m);
  }

  /** The published meters. */
  datatype Meters = Meters(mackInTrim: real, mackOutPad: real, drumDrive: real, drumOutput: real, mainOutput: real)

  /** `sqrt(acc * (1/N) * 0.5)`: the channel-averaged RMS of a tap, the
      root of the mean square over the 2N samples of both channels. */
  function Rms(energy: real, n: nat, sqrt: real -> real): (r: real)
    requires n > 0
    ensures r == sqrt(energy / (2.0 * n as real))
  {
    var inv := 1.0 / n as real;
    assert energy * inv * 0.5 == energy / (2.0 * n as real) by {
      assert inv * (n as real) == 1.0;
    }
    sqrt(energy * inv * 0.5)
  }

  const PadMeterScale: real := 10.0
  const DriveMeterScale: real := 1.5
  const DrumOutMeterScale: real := 1.75
  const MainMeterScale: real := 2.25

  /** The meter finalisation after the sample loop: each tap's RMS times
      its display scale (the pad tap by the raw trim parameter times 10).
      With non-negative energies and trim parameter every meter is
      non-negative. */
  function Finalise(acc: Taps, n: nat, trimParam: real, sqrt: real -> real): (m: Meters)
    requires n > 0
    ensures SqrtNonNegative(sqrt) && TapsNonNegative(acc) && trimParam >= 0.0 ==>
      m.mackInTrim >= 0.0 && m.mackOutPad >= 0.0 && m.drumDrive >= 0.0 && m.drumOutput >= 0.0 && m.mainOutput >= 0.0
  {
    var m := Meters(
      Rms(acc.trim, n, sqrt),
      Rms(acc.pad, n, sqrt) * trimParam * PadMeterScale,
      Rms(acc.drive, n, sqrt) * DriveMeterScale,
      Rms(acc.drumOut, n, sqrt) * DrumOutMeterScale,
      Rms(acc.main, n, sqrt) * MainMeterScale);
    assert SqrtNonNegative(sqrt) && TapsNonNegative(acc) && trimParam >= 0.0 ==>
      m.mackInTrim >= 0.0 && m.mackOutPad >= 0.0 && m.drumDrive >= 0.0 && m.drumOutput >= 0.0 && m.mainOutput >= 0.0 by {
      if SqrtNonNegative(sqrt) && TapsNonNegative(acc) && trimParam >= 0.0 {
        RmsNonNegative(acc.trim, n, sqrt);
        RmsNonNegative(acc.pad, n, sqrt);
        RmsNonNegative(acc.drive, n, sqrt);
        RmsNonNegative(acc.drumOut, n, sqrt);
        RmsNonNegative(acc.main, n, sqrt);
        MulNonNeg(Rms(acc.pad, n, sqrt), trimParam);
        MulNonNeg(Rms(acc.pad, n, sqrt) * trimParam, PadMeterScale);
      }
    }
    m
  }

  lemma RmsNonNegative(energy: real, n: nat, sqrt: real -> real)
    requires n > 0 && energy >= 0.0 && SqrtNonNegative(sqrt)
    ensures Rms(energy, n, sqrt) >= 0.0
  {
    MulNonNeg(energy, 1.0 / n as real);
    MulNonNeg(energy * (1.0 / n as real), 0.5);
  }
}
