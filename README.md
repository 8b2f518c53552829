# Slamity in Dafny

Slamity is a stereo audio plugin that chains two processors. The first,
Mackity, is a console-style saturator: a subsonic one-pole highpass, a
squared input trim, a lowpass biquad, a clamp with a quintic soft clip, a
second biquad, a one-pole DC block, an output pad and a dry/wet mix. The
second, DrumSlam, is a three-band drum saturator. It applies drive, then
splits the sample into low, mid and high bands with one of two cascades of
one-pole filters that alternate from frame to frame. Each band is clamped
and shaped, and the mid band also gets a skewed sine. The bands are then
recombined, the drive is divided back out, and an output gain and a
dry/wet mix follow. A switch selects the order of the two processors.

For every frame of a block, the processor does the following:

- it guards near-silent input against denormals;
- it runs the chain;
- it applies the main gain and the main dry/wet mix;
- it adds TPDF dither from two xorshift32 generators;
- it writes the sample back in place.

Five energy accumulators run alongside. At the end of the block they are
turned into the meter levels shown on the editor's VU meters. The
editor's needle scale and its `key = value` layout file are modelled as
well.

The project is in three layers:

- The value model (`numerics.dfy`, `biquad.dfy`, `mackity.dfy`,
  `drumslam.dfy`, `dither.dfy`, `chain.dfy`) gives every stage as a pure
  function of the coefficients, the per-channel memories and the sample.
  On top of those it defines a frame (`Chain.Frame`) and a whole block
  (`Chain.RunBlock`, `Chain.Finalise`).
- The processor object (`processor.dfy`) is `Processor.SlamityProcessor`.
- The editor helpers (`vuscale.dfy`, `layout.dfy`) model the needle scale
  and the layout file.

The processor object holds the same state as the C++ class:

- the four Mackity one-pole memories;
- the two 15-slot biquad arrays;
- the DrumSlam memories;
- the shared flip flag;
- the two dither words;
- the five meter cells.

Each method updates that state in place. Each method is proved to leave
the state, read through `CoreState()` and `MetersState()`, equal to what
the value model computes from the old state. `ProcessBlock` also
overwrites the two channel arrays with the block's output.

Modelling decisions:

- **DrumSlam memories.** The eighteen scalar DrumSlam memories are
  grouped per channel into the record `DrumSlam.DrumLane`. It has fields
  `a`-`h` for `drum_iirSampleA`-`H` and `last` for `drum_lastSample`. The
  object holds one such field per channel.
- **Numbers.** Doubles are reals. The dither words are `bv32`, so the
  xorshift's shifts and the wrap of the seeding product are exact.
- **Math library.** `tan`, `sin`, `sqrt`, the exponent `frexpf` stores and
  `pow(2, ·)` are arrow-valued parameters collected in `Numerics.Libm`.
  Three facts about them are assumed, each as a precondition of the
  members that need it: `sin` lies in [-1, 1]; `sqrt` of a non-negative
  number is non-negative; and, through `Chain.Derivable`, which
  `Chain.BlockCoeffs` and `ProcessBlock` require, `tan` gives both
  lowpass designs a non-zero normaliser 1 + K/Q + K^2.
- **`pow(x, 5)`.** It is the exact product `x*x*x*x*x`.
- **`rand()`.** It becomes a sequence of draws, each at most RAND_MAX `0x7FFFFFFF` (the glibc value).
- **Sample rate and parameters.** They are inputs of `ProcessBlock`.

`ProcessBlock` returns a ghost step function that agrees with
`Chain.Frame` of the block's coefficients on every input (`StepIsFrame`).
Its contract states the outcome as `RunFrames` of that step.
`Chain.FramesAreBlock` proves that this run is `Chain.RunBlock`. This
indirection keeps the proof of the imperative loop from unfolding the
whole frame expression.

## Model

| member | source | states |
|---|---|---|
| Numerics.Clamp | Source/PluginProcessor.cpp:231-232 | the pair of ifs bounds its result to [-1, 1], leaves values in range alone and sends values above 1 to 1 and below -1 to -1 |
| Numerics.Gain | Source/PluginProcessor.cpp:220 | a gain stage skipped at gain 1 returns the sample unchanged there |
| Numerics.GainIsProduct | Source/PluginProcessor.cpp:254 | skipping the multiply at unity gain never changes the result: the skipped step equals the product |
| Numerics.Mix | Source/PluginProcessor.cpp:258-261 | a dry/wet weight of 1 leaves the processed sample, a weight of 0 gives the dry sample |
| Numerics.MixDistance | Source/PluginProcessor.cpp:393-396 | the crossfade moves the dry sample towards the processed one by exactly the fraction wet, the skipped case included |
| Numerics.MixBetween | Source/PluginProcessor.cpp:432-435 | for a weight in [0, 1] the mixed sample lies between the processed and the dry sample |
| Numerics.Flush | Source/PluginProcessor.cpp:212 | a memory of magnitude below 1.18e-37 becomes 0, any other is kept, and the magnitude never grows |
| Numerics.OnePoleDistance | Source/PluginProcessor.cpp:213 | one smoothing step scales the distance between memory and input by 1 - a |
| Numerics.OnePoleBetween | Source/PluginProcessor.cpp:279-280 | for a coefficient in [0, 1] the new memory lies between the old memory and the input |
| Numerics.OnePole | Source/PluginProcessor.cpp:213 | the smoothing step m(1 - a) + x a keeps the memory at a = 0 and takes the input at a = 1 |
| Dither.Xorshift | Source/PluginProcessor.cpp:440 | the shift-xor sequence <<13, >>17, <<5 on a 32-bit word maps a non-zero state to a non-zero state |
| Dither.Iterate | Source/PluginProcessor.cpp:440-443 | a non-zero dither state stays non-zero after any number of generator steps |
| Dither.Scramble | Source/PluginProcessor.cpp:111 | the 32-bit product of a draw with UINT32_MAX is the draw negated modulo 2^32 |
| Dither.ScrambleReachesFloor | Source/PluginProcessor.cpp:111-112 | for a draw up to RAND_MAX, the scrambled value is at least 16386 exactly when the draw is non-zero |
| Dither.Seed | Source/PluginProcessor.cpp:111 | the seeding loop stops at the first non-zero draw, consuming exactly the zero draws before it, with a state at least 16386 and so non-zero |
| Dither.Guard | Source/PluginProcessor.cpp:411-412 | an input of magnitude at least 1.18e-23 passes unchanged, a smaller one becomes fpd * 1.18e-17, and with a non-zero state the result is never below the threshold |
| Dither.Amplitude | Source/PluginProcessor.cpp:441 | an offset of 0 from the midpoint gives no dither; with a positive power of two the amplitude has the sign of the offset |
| Dither.AmplitudeOdd | Source/PluginProcessor.cpp:441 | offsets mirrored about the midpoint give opposite amplitudes |
| Dither.DitherTerm | Source/PluginProcessor.cpp:441-444 | the state 0x7FFFFFFF adds nothing; with pow(2, expon + 62) positive, a state above it adds a positive term and one below it a negative term |
| Biquad.Design | Source/PluginProcessor.cpp:166-184 | the designed slots keep frequency and resonance in slots 0 and 1 and have slot 3 = 2 * slot 2 and slot 4 = slot 2; the numerator and denominator agree at DC and the numerator vanishes at Nyquist |
| Biquad.Step | Source/PluginProcessor.cpp:224-225 | a direct-form-I step shifts the history: x2 gets x1, x1 the input, y2 gets y1, y1 the output |
| Biquad.SettledPassesDc | Source/PluginProcessor.cpp:224-228 | slots whose numerator and denominator agree at DC pass a settled constant unchanged |
| Biquad.DesignedPassesDc | Source/PluginProcessor.cpp:170-176 | every designed lowpass passes a settled constant unchanged |
| Mackity.SoftClip | Source/PluginProcessor.cpp:231-236 | the clamp and quintic clip x - 0.1768 x^5 never increase the clamped magnitude, are at most 1 in magnitude and keep the sign |
| Mackity.ClipShrinks | Source/PluginProcessor.cpp:233-236 | on [-1, 1] the quintic clip x - 0.1768 x^5 keeps the sign and never increases the magnitude |
| Mackity.MackityStep | Source/PluginProcessor.cpp:208-262 | one channel of Mackity: flushed or smoothed subsonic memory, trim tap, lowpass A as Biquad.Step with the slots of array A, its clipped output into lowpass B as Biquad.Step with the slots of array B, flushed or smoothed DC memory, pad tap, and the dry/wet against the stage input with its wet = 1 and wet = 0 cases |
| Mackity.MackityStepScaling | Source/PluginProcessor.cpp:219-255 | the trim and pad taps are the highpassed signals multiplied by their gains, the skip at unity included |
| Mackity.MackityStepCrossfade | Source/PluginProcessor.cpp:257-261 | the stage output moves from the stage input towards the pad tap by exactly the wet fraction |
| DrumSlam.Split | Source/PluginProcessor.cpp:277-318 | the bands add back exactly to the driven sample; with the flag set only memories a, b, e, f change (low = b, mid = f - b, high = s - f), otherwise only c, d, g, h (with d and h); each changed memory is one smoothing step |
| DrumSlam.SplitExact | Source/PluginProcessor.cpp:277-318 | on both flip branches low + mid + high equals the driven sample |
| DrumSlam.Saturate | Source/PluginProcessor.cpp:326-327 | the clamped cubic shaper never increases the clamped magnitude and keeps its sign |
| DrumSlam.SaturateOdd | Source/PluginProcessor.cpp:326-327 | the low and high shapers are odd functions |
| DrumSlam.LowShape | Source/PluginProcessor.cpp:322-327 | the low band after clamp and shaping has magnitude at most its clamped input and at most 1 |
| DrumSlam.HighShape | Source/PluginProcessor.cpp:332-337 | the high band after clamp and shaping has magnitude at most its clamped input and at most 1 |
| DrumSlam.MidShape | Source/PluginProcessor.cpp:345-364 | with sin bounded, the skewed two-pass sine shaper gives a mid band in [-1, 1] |
| DrumSlam.MidShapeOdd | Source/PluginProcessor.cpp:345-364 | for a non-zero mid sample that differs from its memory, negating both negates the shaped mid band |
| DrumSlam.Recombine | Source/PluginProcessor.cpp:388-389 | bands of magnitude at most 1 recombined with drive >= 1 give at most 3 times the output gain |
| DrumSlam.RecombineBound | Source/PluginProcessor.cpp:388 | the recombination bound: bands at most 1, divided by a drive >= 1, then scaled by the output gain |
| DrumSlam.UndoDrive | Source/PluginProcessor.cpp:328-342 | dividing the recombined driven bands by drive restores the low and high bands and leaves the mid band divided by drive |
| DrumSlam.Drive | Source/PluginProcessor.cpp:272-273 | a drive of 1 leaves the sample unchanged, and dividing by any non-zero drive undoes it |
| DrumSlam.Skew | Source/PluginProcessor.cpp:346-354 | a zero mid sample gets no skew; with sin bounded the skew is at most 3.1415926 * 1.557079633 times the mid magnitude |
| DrumSlam.CappedSin | Source/PluginProcessor.cpp:357-358 | an argument at or above 1.57079633 reads sin at the cap; with sin bounded the result lies in [-1, 1] |
| DrumSlam.TwoPass | Source/PluginProcessor.cpp:355-362 | with sin bounded, the two capped sine passes give a value in [-1, 1] |
| DrumSlam.SkewedSine | Source/PluginProcessor.cpp:346-362 | with sin bounded, the skewed sine of the mid band lies in [-1, 1] |
| DrumSlam.DrumStep | Source/PluginProcessor.cpp:265-397 | one channel of DrumSlam: the cascades advance as the split says, the mid memory becomes the driven mid band, the drive tap is the driven input, the output tap is the shaped recombination of the split bands, and the output is the dry/wet crossfade of that tap against the stage input |
| DrumSlam.DrumStepCrossfade | Source/PluginProcessor.cpp:393-396 | the stage output moves from the stage input towards the output tap by exactly the wet fraction, for every weight |
| DrumSlam.Shaped | Source/PluginProcessor.cpp:321-389 | with sin bounded and drive >= 1 the recombined output is at most 3 times the output gain in magnitude |
| DrumSlam.DrumStepPairs | Source/PluginProcessor.cpp:277-319 | only the cascade pair the flip selects changes |
| DrumSlam.DrumStepBounded | Source/PluginProcessor.cpp:388-390 | the DrumSlam output tap is at most 3 times the output gain in magnitude |
| DrumSlam.DrumStepDryWet | Source/PluginProcessor.cpp:393-396 | a fully wet DrumSlam mix outputs the shaped signal, a fully dry one the stage input |
| Chain.BlockCoeffs | Source/PluginProcessor.cpp:139-200 | order is Mackity first exactly when chainOrder < 0.5; the one-pole coefficients scale with 44100 / sr; both biquads get 19160 / sr and their resonances with the lowpass numerator shape; the trim is 1 exactly when its parameter is 0.1; in range, the trim is in [0, 100] and the drive in [1, 4] |
| Chain.TrimIsOne | Source/PluginProcessor.cpp:158-161 | over the reals, (10 p)^2 equals 1 exactly when p = 0.1 for non-negative p, so the model skips the trim exactly then (the float parameter is not modelled, see the floating-point line under Left out) |
| Chain.Energy | Source/PluginProcessor.cpp:221 | a meter contribution sL^2 + sR^2 is non-negative |
| Chain.AddTaps | Source/PluginProcessor.cpp:221 | adding a frame's energies to the empty accumulators gives those energies, and non-negative accumulators stay non-negative |
| Chain.MackStage | Source/PluginProcessor.cpp:208-262 | the stereo Mackity stage leaves DrumSlam memories, flip flag and dither states alone and yields non-negative energies |
| Chain.DrumStage | Source/PluginProcessor.cpp:265-397 | the stereo DrumSlam stage negates the shared flip flag once, leaves the Mackity memories and dither states alone and yields non-negative energies |
| Chain.Route | Source/PluginProcessor.cpp:419-425 | either order negates the flip flag once, keeps the dither states and gives non-negative stage taps |
| Chain.RouteBypass | Source/PluginProcessor.cpp:419-425 | with both stage mixes fully dry, either order outputs its input on both channels |
| Chain.MainOut | Source/PluginProcessor.cpp:427-435 | fully wet, the chain output times the main gain; fully dry, the guarded input whatever the gain; in between, the dry input moved towards the scaled output by exactly the wet fraction |
| Chain.ChannelOut | Source/PluginProcessor.cpp:427-444 | fully wet, the scaled chain output plus the dither drawn from the advanced generator state at that sample's exponent; fully dry, the guarded input plus its dither |
| Chain.Frame | Source/PluginProcessor.cpp:405-448 | one frame negates the flip flag, advances both dither states by one xorshift and yields non-negative taps |
| Chain.RunFrames | Source/PluginProcessor.cpp:405 | running a step over a block gives one output per input sample on each channel |
| Chain.RunFramesNext | Source/PluginProcessor.cpp:405-448 | the run over one more frame appends that frame's output and adds its taps |
| Chain.RunBlock | Source/PluginProcessor.cpp:405-448 | a block has one output per input, non-negative accumulated energies, the flip flag negated once per frame, and each dither state advanced once per frame |
| Chain.FramesAreBlock | Source/PluginProcessor.cpp:405-448 | any step that agrees with the frame function runs the block exactly as RunBlock does |
| Chain.FramesKeepTaps | Source/PluginProcessor.cpp:203-205 | accumulators that start at 0 and add non-negative taps stay non-negative |
| Chain.FramesFlip | Source/PluginProcessor.cpp:319 | after n frames the flip flag is its start value negated n times |
| Chain.FramesDither | Source/PluginProcessor.cpp:440-443 | after n frames each dither state is the xorshift iterated n times |
| Chain.FrameBypass | Source/PluginProcessor.cpp:405-448 | with both stage mixes dry and the main mix wet, each channel is the channel output of its guarded input: at any main gain, that input times the gain plus the dither of the product |
| Chain.FrameDry | Source/PluginProcessor.cpp:432-435 | a fully dry main mix outputs the guarded input plus dither whatever the stages do |
| Chain.FramesCausal | Source/PluginProcessor.cpp:405-448 | the first m outputs of a run depend only on the first m inputs |
| Chain.RunBlockCausal | Source/PluginProcessor.cpp:405-448 | block processing is causal |
| Chain.Finalise | Source/PluginProcessor.cpp:451-456 | with non-negative accumulators and trim parameter and sqrt non-negative, all five meters are non-negative |
| Chain.Rms | Source/PluginProcessor.cpp:451-452 | sqrt(acc * (1/N) * 0.5) is sqrt of the accumulator over 2N, the mean square over the samples of both channels |
| Chain.RmsNonNegative | Source/PluginProcessor.cpp:452 | sqrt(acc / N * 0.5) is non-negative for a non-negative accumulator |
| Processor.DesignInto | Source/PluginProcessor.cpp:166-184 | writing the coefficient slots of an array makes them the designed slots and leaves both history blocks untouched |
| Processor.FilterStereo | Source/PluginProcessor.cpp:224-228 | the left and right DF1 steps on one array are Biquad.Step on slots 7-10 and 11-14 with the old coefficients, which stay unchanged |
| Processor.SplitLane | Source/PluginProcessor.cpp:277-318 | the in-place per-channel split computes exactly DrumSlam.Split |
| Processor.Zero | Source/PluginProcessor.cpp:85-86 | every slot of the array becomes 0 |
| Processor.SlamityProcessor.constructor | Source/PluginProcessor.h:53-93 | all memories and both 15-slot arrays start at 0, the flip flag true, both dither words 1 and all meters 0 |
| Processor.SlamityProcessor.ResetMackity | Source/PluginProcessor.cpp:80-86 | all four Mackity memories and every slot of both biquad arrays become 0 |
| Processor.SlamityProcessor.SeedDither | Source/PluginProcessor.cpp:110-112 | both dither words are seeded from the first two non-zero draws, each at least 16386 |
| Processor.SlamityProcessor.PrepareToPlay | Source/PluginProcessor.cpp:78-113 | every filter memory and biquad slot is 0, the flip flag true, both dither words at least 16386 from the first two non-zero draws, meters untouched |
| Processor.SlamityProcessor.ProcessMackity | Source/PluginProcessor.cpp:208-262 | the in-place stereo Mackity stage leaves the state and outputs that Chain.MackStage computes, keeping the coefficient slots |
| Processor.SlamityProcessor.ProcessDrumSlam | Source/PluginProcessor.cpp:265-397 | the in-place stereo DrumSlam stage leaves the state and outputs that Chain.DrumStage computes |
| Processor.SlamityProcessor.ProcessRoute | Source/PluginProcessor.cpp:419-425 | the two stages in the selected order compute Chain.Route |
| Processor.SlamityProcessor.MainStage | Source/PluginProcessor.cpp:427-436 | main gain and main mix per channel, and the main meter energy of the result |
| Processor.SlamityProcessor.StepDither | Source/PluginProcessor.cpp:440 | both dither words advance by one xorshift and nothing else in the state changes |
| Processor.SlamityProcessor.ProcessFrame | Source/PluginProcessor.cpp:407-447 | one frame on the object leaves the state, outputs and taps that Chain.Frame computes |
| Processor.SlamityProcessor.FrameAt | Source/PluginProcessor.cpp:405-448 | frame i overwrites sample i of both channels with the step's outputs and leaves every other sample alone |
| Processor.SlamityProcessor.SampleLoop | Source/PluginProcessor.cpp:405-448 | the sample loop leaves the state, both channel buffers and the accumulated energies as the run over the old buffers says |
| Processor.SlamityProcessor.StoreMeters | Source/PluginProcessor.cpp:450-456 | the five meter cells become Chain.Finalise of the accumulators |
| Processor.SlamityProcessor.MeteredLoop | Source/PluginProcessor.cpp:402-456 | the sample loop followed by the meter stores |
| Processor.SlamityProcessor.ProcessBlock | Source/PluginProcessor.cpp:126-457 | an empty block changes no field, array or meter; otherwise the slots are designed for the sample rate, buffers and state are the block run of the frame function, and meters its finalisation |
| VuScale.TableIncreasing | Source/PluginEditor.cpp:25-36 | both columns of the breakpoint table strictly increase |
| VuScale.LastBelow | Source/PluginEditor.cpp:42-48 | the segment picked is the last breakpoint at or below the level |
| VuScale.Lerp | Source/PluginEditor.cpp:46-47 | the line through two points reads the lower angle at the lower level and the upper angle at the upper level |
| VuScale.Interpolate | Source/PluginEditor.cpp:46-47 | the interpolation on table segment i reads the breakpoint angles at both ends of the segment |
| VuScale.ScaleAngle | Source/PluginEditor.cpp:25-48 | every reading lies between the end angles, -50 and 50 degrees |
| VuScale.LerpBetween | Source/PluginEditor.cpp:46-47 | on its segment the interpolation lies between the two angles |
| VuScale.LerpMonotone | Source/PluginEditor.cpp:46-47 | the interpolation on a rising segment is non-decreasing |
| VuScale.InterpolateBetween | Source/PluginEditor.cpp:46-47 | on table segment i the interpolation lies between its two angles |
| VuScale.InterpolateMonotone | Source/PluginEditor.cpp:46-47 | the interpolation on each table segment is non-decreasing |
| VuScale.LastBelowInSegment | Source/PluginEditor.cpp:42-48 | a level inside segment i has its last breakpoint below at i, or at i + 1 when it sits on that breakpoint |
| VuScale.SegmentAgrees | Source/PluginEditor.cpp:42-48 | every segment containing the level gives the same angle, so searching for the first matching segment agrees with the scale |
| VuScale.ScaleFloor | Source/PluginEditor.cpp:39 | any level at or below -20 dB reads -50 degrees |
| VuScale.ScaleCeiling | Source/PluginEditor.cpp:40 | any level at or above +3 dB reads 50 degrees |
| VuScale.ScaleAtBreakpoint | Source/PluginEditor.cpp:25-48 | each breakpoint level reads exactly its angle |
| VuScale.AnglesBetweenEnds | Source/PluginEditor.cpp:25-36 | every table angle lies between the first and the last |
| VuScale.AnglesIncrease | Source/PluginEditor.cpp:25-36 | table angles increase with the index |
| VuScale.DbsIncrease | Source/PluginEditor.cpp:25-36 | table levels increase with the index |
| VuScale.ScaleMonotone | Source/PluginEditor.cpp:25-48 | the reading never decreases as the level rises |
| VuScale.SomeSegment | Source/PluginEditor.cpp:42-50 | inside the table's span some segment contains the level, so the final return 0 is never reached |
| VuScale.DbToAngle | Source/PluginEditor.cpp:20-51 | the clamps and the first-segment search compute the scale, with the fallback proved unreachable |
| Layout.TrimStart | Source/PluginEditor.cpp:213 | trimStart drops only leading whitespace and leaves a result that is empty or starts with a non-space |
| Layout.TrimEnd | Source/PluginEditor.cpp:217 | dropping trailing whitespace keeps a prefix that is empty or ends in a non-space |
| Layout.Trim | Source/PluginEditor.cpp:217 | trim leaves neither end whitespace |
| Layout.IndexOf | Source/PluginEditor.cpp:215 | indexOfChar is -1 exactly when the character is absent, otherwise its first position |
| Layout.ParseLine | Source/PluginEditor.cpp:213-217 | a line is skipped exactly when it is blank after trimStart, starts with #, or has no =; a parsed key is trimmed and holds no = |
| Layout.Skipped | Source/PluginEditor.cpp:213-216 | a line of whitespace only and a line without = are skipped |
| Layout.Parsed | Source/PluginEditor.cpp:211 | the parse of each line, in order |
| Layout.StoreNext | Source/PluginEditor.cpp:217 | one more line leaves the map for a skipped line and sets its key otherwise |
| Layout.Store | Source/PluginEditor.cpp:217 | storing entries in order holds at most one key per entry |
| Layout.LayoutOf | Source/PluginEditor.cpp:211-218 | a layout holds at most one key per line, and every key is trimmed and free of = |
| Layout.ReadLayoutFile | Source/PluginEditor.cpp:203-220 | no file gives the empty map; otherwise the loop over the lines builds exactly the layout of those lines |
| Layout.StoreKeys | Source/PluginEditor.cpp:211-218 | a key is stored exactly when some entry sets it |
| Layout.StoreLastWins | Source/PluginEditor.cpp:217 | the stored value is that of the last entry setting the key |
| Layout.ParsedAt | Source/PluginEditor.cpp:211-217 | the i-th parsed entry sets a key exactly when line i does |
| Layout.LayoutKeys | Source/PluginEditor.cpp:211-218 | a key is in the layout exactly when some line sets it |
| Layout.LastWins | Source/PluginEditor.cpp:217 | a later line with the same key overwrites an earlier one: the value is that of the last line setting the key |
| Layout.Lv | Source/PluginEditor.cpp:222-226 | lookup gives the stored value when the key is present and the default otherwise |
| Layout.LookupLayout | Source/PluginEditor.cpp:222-226 | looking a key up in a layout gives the default when no line sets it and the last setting line's value otherwise |
| Layout.TrimPadded | Source/PluginEditor.cpp:217 | trim strips any whitespace around a string whose ends are not whitespace |
| Layout.ParseAt | Source/PluginEditor.cpp:213-217 | a non-comment line whose first = follows u sets trim(u) to the number of the trimmed rest |
| Layout.ParseFormatted | Source/PluginEditor.cpp:213-217 | a line written as key = text with any surrounding blanks reads back as that key with the number of the trimmed text |

## Left out

- Floating point: doubles are modelled as reals. Rounding, overflow to infinity, NaN and denormals are out, and so is the float meaning of the 1.18e-23 and 1.18e-37 thresholds; the thresholds act only as guards. The same goes for float comparisons: `mackInTrim != 1.0` compares the square of `mackInTrimParam * 10.0`, where the parameter is a float; at the float nearest 0.1 that square is not 1, while over the reals it is 1 exactly at 0.1 (`Chain.TrimIsOne`). `ScopedNoDenormals` is left out for the same reason.
- Float narrowing: the channel buffers are `float` in the plugin and arrays of reals here. The narrowing casts `(float)` on channel writes and meter stores are not modelled, and neither is the `(float)` argument of `frexpf`: the exponent function receives the unrounded sample.
- The math library: tan, sin, sqrt, the frexpf exponent and pow(2, ·) are parameters. Three facts are assumed, each as a precondition of the members that use it: sin is bounded by 1, sqrt of a non-negative number is non-negative, and (through `Chain.Derivable`, required by `Chain.BlockCoeffs` and `ProcessBlock`) tan gives both lowpass designs the non-zero normaliser 1 + K/Q + K^2. `pow(x, 5)` is the exact product.
- `rand()` is a sequence of draws, each at most RAND_MAX. Seeding (`Processor.SlamityProcessor.SeedDither`, `PrepareToPlay`) requires two non-zero draws, because the source loop does not terminate otherwise.
- Processor.SlamityProcessor.ProcessBlock: requires `Derivable`, which is the sample rate being positive with non-zero biquad normalisation denominators. The C++ would compute infinities in that case. It also requires `ParamsInRange`, the parameter ranges that the plugin's parameter layout guarantees and that are needed for the drive to be non-zero.
- Processor.SlamityProcessor.ProcessBlock: the block is stated through the ghost step `StepIsFrame` and `RunFrames`. It equals `Chain.RunBlock` by `Chain.FramesAreBlock`, but the method does not name RunBlock itself.
- Atomics: the meters are `std::atomic<float>` stored with relaxed ordering. Here they are plain fields written at the end of the block, and cross-thread visibility is not modelled.
- JUCE plumbing: parameter reads from the value tree, clearing of output channels beyond the inputs (Source/PluginProcessor.cpp:133-134), bus-layout checks, state save and restore, and the editor factory. These are host concerns with no DSP logic. The model takes the parameters as a value and the buffer as two arrays.
- Editor rendering: painting, layout of the controls, look-and-feel classes and the timer are graphics only. `VuMeterComponent::setLevel` is left out too, because it calls log10 and repaints.
- Layout file loading: `readLayoutFile`'s file path, `loadFileAsString` and the split into lines are I/O. The model parses a given optional sequence of lines, and `getFloatValue` is an abstract conversion parameter. `JUCE`'s whitespace test is modelled for ASCII only: a space, or a character from tab through carriage return.
