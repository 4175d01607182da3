/**
 * The window steps `do_stft` runs once per hop, and the settings the
 * processor derives for its compressors, on values: what each step does to
 * the output rings, and the arithmetic of `update_compressors`.
 */
module WindowSteps {

  import opened Ring
  import opened Spectral
  import opened Transfer
  import opened Stft

  // ---------------------------------------------------------------------------
  // The bypass step
  // ---------------------------------------------------------------------------

  /**
   * The bypass step on the channels below `upto` (src/processor.cpp:279-289):
   * the `hop` newest input samples overwrite the `hop` samples at the output
   * cursor, without moving it; other channels are unchanged.
   */
  function BypassOutputs(inputs: seq<Ring>, outputs: seq<Ring>, hop: nat, upto: nat, capacity: nat): (r: seq<Ring>)
    requires AllSized(inputs, |inputs|, capacity) && AllSized(outputs, |inputs|, capacity)
    requires hop <= capacity && upto <= |inputs|
    ensures SamePlaces(outputs, r)
  {
    seq(|outputs|, c requires 0 <= c < |outputs| =>
      if c < upto then ReadNFromInPlace(outputs[c], CopyLastNTo(inputs[c], hop), hop) else outputs[c])
  }

  /** Bypassing one more channel changes that channel's output ring only. */
  lemma BypassOutputsStep(inputs: seq<Ring>, outputs: seq<Ring>, hop: nat, upto: nat, capacity: nat)
    requires AllSized(inputs, |inputs|, capacity) && AllSized(outputs, |inputs|, capacity)
    requires hop <= capacity && upto < |inputs|
    ensures BypassOutputs(inputs, outputs, hop, upto + 1, capacity)
      == BypassOutputs(inputs, outputs, hop, upto, capacity)[upto :=
           ReadNFromInPlace(outputs[upto], CopyLastNTo(inputs[upto], hop), hop)]
  {
  }

  /**
   * After the bypass step each output ring's next `hop` samples to play are
   * the `hop` newest input samples of its channel, and the rest of what it
   * holds is unchanged.
   */
  lemma BypassPlaysNewestHop(inputs: seq<Ring>, outputs: seq<Ring>, hop: nat, capacity: nat, c: nat)
    requires AllSized(inputs, |inputs|, capacity) && AllSized(outputs, |inputs|, capacity)
    requires hop <= capacity && c < |inputs|
    ensures View(BypassOutputs(inputs, outputs, hop, |inputs|, capacity)[c])[..hop] == View(inputs[c])[capacity - hop..]
    ensures View(BypassOutputs(inputs, outputs, hop, |inputs|, capacity)[c])[hop..] == View(outputs[c])[hop..]
  {
    var newest := CopyLastNTo(inputs[c], hop);
    ReadNFromInPlaceOverwrites(outputs[c], newest, hop);
    assert newest[..hop] == newest;
  }

  /**
   * The bypass step with the latency of the spectral step. The spectral
   * step's frame starts with the oldest sample of the input window, so for
   * the same latency each output ring's next hop to play is the oldest hop
   * of its input window, not the newest.
   */
  function AlignedBypassOutputs(inputs: seq<Ring>, outputs: seq<Ring>, hop: nat, upto: nat, capacity: nat)
    : (r: seq<Ring>)
    requires AllSized(inputs, |inputs|, capacity) && AllSized(outputs, |inputs|, capacity)
    requires hop <= capacity && upto <= |inputs|
    ensures SamePlaces(outputs, r)
  {
    seq(|outputs|, c requires 0 <= c < |outputs| =>
      if c < upto then ReadNFromInPlace(outputs[c], CopyLastNTo(inputs[c], capacity), hop) else outputs[c])
  }

  /**
   * After the aligned bypass step each output ring's next `hop` samples to
   * play are the `hop` oldest samples of its input window, and the rest of
   * what it holds is unchanged.
   */
  lemma AlignedBypassPlaysOldestHop(inputs: seq<Ring>, outputs: seq<Ring>, hop: nat, capacity: nat, c: nat)
    requires AllSized(inputs, |inputs|, capacity) && AllSized(outputs, |inputs|, capacity)
    requires hop <= capacity && c < |inputs|
    ensures View(AlignedBypassOutputs(inputs, outputs, hop, |inputs|, capacity)[c])[..hop] == View(inputs[c])[..hop]
    ensures View(AlignedBypassOutputs(inputs, outputs, hop, |inputs|, capacity)[c])[hop..] == View(outputs[c])[hop..]
  {
    var window := CopyLastNTo(inputs[c], capacity);
    assert window == View(inputs[c]);
    ReadNFromInPlaceOverwrites(outputs[c], window, hop);
  }

  /**
   * The bypass step as written runs ahead of the spectral step. Take a
   * 512-sample input window holding the ramp 0, 1, ..., 511 and a hop of 128.
   * The next sample the bypass plays is sample 384 of the window, while the
   * spectral step's frame, like the aligned bypass, starts from sample 0. So
   * the bypassed output leads the processed output by the window minus one
   * hop.
   */
  lemma BypassRunsAheadOfSpectral()
    ensures var input, output := Ring(seq(512, i => i as real), 0), Ring(Zeros(512), 0);
            && View(BypassOutputs([input], [output], 128, 1, 512)[0])[0] == 384.0
            && View(AlignedBypassOutputs([input], [output], 128, 1, 512)[0])[0] == 0.0
  {
    var input, output := Ring(seq(512, i => i as real), 0), Ring(Zeros(512), 0);
    BypassPlaysNewestHop([input], [output], 128, 512, 0);
    AlignedBypassPlaysOldestHop([input], [output], 128, 512, 0);
    assert View(input)[384] == 384.0;
    assert View(input)[0] == 0.0;
  }

  // ---------------------------------------------------------------------------
  // The spectral step
  // ---------------------------------------------------------------------------

  /**
   * The spectral step's overlap-add on the channels below `upto`
   * (src/processor.cpp:358-423): each output ring gets, at its cursor, the
   * synthesis frame of the newest window of its input, scaled by the makeup
   * gain; other channels are unchanged.
   */
  function CompressedOutputs(dsp: Dsp, table: seq<real>, compressors: seq<Compressor>, gain: real,
                             inputs: seq<Ring>, outputs: seq<Ring>, upto: nat): (r: seq<Ring>)
    requires LengthPreserving(dsp) && |compressors| < |table|
    requires AllSized(inputs, |inputs|, |table|) && AllSized(outputs, |inputs|, |table|)
    requires upto <= |inputs|
    ensures SamePlaces(outputs, r)
  {
    seq(|outputs|, c requires 0 <= c < |outputs| =>
      if c < upto
      then AddNFromInPlace(outputs[c], SynthesisFrame(dsp, table, CopyLastNTo(inputs[c], |table|), compressors, c),
                           |table|, gain)
      else outputs[c])
  }

  /** Compressing one more channel changes that channel's output ring only. */
  lemma CompressedOutputsStep(dsp: Dsp, table: seq<real>, compressors: seq<Compressor>, gain: real,
                              inputs: seq<Ring>, outputs: seq<Ring>, upto: nat)
    requires LengthPreserving(dsp) && |compressors| < |table|
    requires AllSized(inputs, |inputs|, |table|) && AllSized(outputs, |inputs|, |table|)
    requires upto < |inputs|
    ensures CompressedOutputs(dsp, table, compressors, gain, inputs, outputs, upto + 1)
      == CompressedOutputs(dsp, table, compressors, gain, inputs, outputs, upto)[upto :=
           AddNFromInPlace(outputs[upto], SynthesisFrame(dsp, table, CopyLastNTo(inputs[upto], |table|), compressors, upto),
                           |table|, gain)]
  {
  }

  /**
   * Overlap-add: after the spectral step the output of channel `c`, seen
   * from its cursor, is what it held plus the makeup gain times the
   * synthesis frame of the newest input window, sample by sample over the
   * whole window.
   */
  lemma CompressedOutputsOverlapAdd(dsp: Dsp, table: seq<real>, compressors: seq<Compressor>, gain: real,
                                    inputs: seq<Ring>, outputs: seq<Ring>, c: nat)
    requires LengthPreserving(dsp) && |compressors| < |table|
    requires AllSized(inputs, |inputs|, |table|) && AllSized(outputs, |inputs|, |table|)
    requires c < |inputs|
    ensures View(CompressedOutputs(dsp, table, compressors, gain, inputs, outputs, |inputs|)[c])
         == AddScaled(View(outputs[c]), SynthesisFrame(dsp, table, View(inputs[c]), compressors, c), |table|, gain)
  {
    CompressedChannel(dsp, table, compressors, gain, inputs, outputs, c);
    AddNFromInPlaceView(outputs[c], SynthesisFrame(dsp, table, View(inputs[c]), compressors, c), |table|, gain);
  }

  /** Channel `c` of the spectral step: the synthesis frame of its newest input window added at its output cursor. */
  lemma CompressedChannel(dsp: Dsp, table: seq<real>, compressors: seq<Compressor>, gain: real,
                          inputs: seq<Ring>, outputs: seq<Ring>, c: nat)
    requires LengthPreserving(dsp) && |compressors| < |table|
    requires AllSized(inputs, |inputs|, |table|) && AllSized(outputs, |inputs|, |table|)
    requires c < |inputs|
    ensures CompressedOutputs(dsp, table, compressors, gain, inputs, outputs, |inputs|)[c]
         == AddNFromInPlace(outputs[c], SynthesisFrame(dsp, table, View(inputs[c]), compressors, c), |table|, gain)
  {
    assert CopyLastNTo(inputs[c], |table|) == View(inputs[c]);
  }

  /**
   * The bin magnitudes of the newest window of every sidechain ring
   * (src/processor.cpp:314-342), one row per channel.
   */
  function SidechainMagnitudes(dsp: Dsp, sidechains: seq<Ring>, capacity: nat): (m: seq<seq<real>>)
    requires LengthPreserving(dsp) && AllSized(sidechains, |sidechains|, capacity)
    ensures |m| == |sidechains|
    ensures forall c :: 0 <= c < |sidechains| ==> m[c] == BinMagnitudes(dsp, View(sidechains[c]))
  {
    seq(|sidechains|, c requires 0 <= c < |sidechains| => BinMagnitudes(dsp, CopyLastNTo(sidechains[c], capacity)))
  }

  /** The accumulators with the magnitude of bin `k + 1` added to accumulator `k`, for every `k` below `upto`. */
  function AddBins(acc: seq<real>, magnitudes: seq<real>, upto: nat): (r: seq<real>)
    requires upto <= |acc| < |magnitudes|
    ensures |r| == |acc|
  {
    seq(|acc|, k requires 0 <= k < |acc| => if k < upto then acc[k] + magnitudes[k + 1] else acc[k])
  }

  lemma AddBinsStep(acc: seq<real>, magnitudes: seq<real>, i: nat)
    requires i < |acc| < |magnitudes|
    ensures AddBins(acc, magnitudes, i + 1) == AddBins(acc, magnitudes, i)[i := acc[i] + magnitudes[i + 1]]
  {
  }

  /**
   * Adding channel `c`'s bin magnitudes to accumulators that hold the sums
   * over the channels below `c` gives the sums over the channels up to `c`.
   */
  lemma AddBinsAccumulates(acc: seq<real>, magnitudes: seq<seq<real>>, c: nat)
    requires c < |magnitudes|
    requires forall d :: 0 <= d < |magnitudes| ==> |acc| < |magnitudes[d]|
    requires forall k :: 0 <= k < |acc| ==> acc[k] == ColumnSum(magnitudes, k + 1, c)
    ensures forall k :: 0 <= k < |acc| ==> AddBins(acc, magnitudes[c], |acc|)[k] == ColumnSum(magnitudes, k + 1, c + 1)
  {
  }

  /**
   * The compressors after the sidechain step has set the thresholds below
   * `upto` (src/processor.cpp:344-356): compressor `i` takes as threshold
   * the mean over channels of the magnitude of bin `i + 1`; its other
   * settings are kept.
   */
  function WithSidechainThresholds(compressors: seq<Compressor>, magnitudes: seq<seq<real>>, upto: nat)
    : (r: seq<Compressor>)
    requires |magnitudes| > 0 && upto <= |compressors|
    requires forall c :: 0 <= c < |magnitudes| ==> |compressors| < |magnitudes[c]|
    ensures |r| == |compressors|
  {
    seq(|compressors|, i requires 0 <= i < |compressors| =>
      if i < upto then compressors[i].(threshold := ChannelMean(magnitudes, i + 1)) else compressors[i])
  }

  lemma WithSidechainThresholdsStep(compressors: seq<Compressor>, magnitudes: seq<seq<real>>, i: nat)
    requires |magnitudes| > 0 && i < |compressors|
    requires forall c :: 0 <= c < |magnitudes| ==> |compressors| < |magnitudes[c]|
    ensures WithSidechainThresholds(compressors, magnitudes, i + 1)
      == WithSidechainThresholds(compressors, magnitudes, i)[i :=
           compressors[i].(threshold := ChannelMean(magnitudes, i + 1))]
  {
  }

  /** The accumulators below `upto` reset to zero. */
  function ClearedBelow(acc: seq<real>, upto: nat): (r: seq<real>)
    requires upto <= |acc|
    ensures |r| == |acc|
    ensures forall k :: 0 <= k < upto ==> r[k] == 0.0
    ensures forall k :: upto <= k < |acc| ==> r[k] == acc[k]
  {
    seq(|acc|, k requires 0 <= k < |acc| => if k < upto then 0.0 else acc[k])
  }

  // ---------------------------------------------------------------------------
  // Compressor settings (`update_compressors`)
  // ---------------------------------------------------------------------------

  /**
   * The rate at which each compressor sees samples, one per hop
   * (src/processor.cpp:517-519): the host rate divided by the hop length
   * `windowSize / overlap`, taken as a real quotient.
   */
  function EffectiveSampleRate(sampleRate: real, windowSize: nat, overlap: nat): (rate: real)
    requires windowSize > 0 && overlap > 0
    ensures rate * (windowSize as real / overlap as real) == sampleRate
  {
    var hop := windowSize as real / overlap as real;
    assert hop > 0.0;
    sampleRate / hop
  }

  /**
   * The pink-noise threshold of compressor `i` (src/processor.cpp:551-567):
   * 3 dB minus 3 dB per octave of the bin's frequency plus 2 Hz; `log2` is
   * the library logarithm.
   */
  function PinkThreshold(sampleRate: real, windowSize: nat, i: nat, log2: real -> real): real
    requires windowSize > 0
  {
    (0.0 + 3.0) - 3.0 * log2(BinFrequency(sampleRate, windowSize, i) + 2.0)
  }

  /** The centre frequency of the bin compressor `i` works on, bin `i + 1`. */
  function BinFrequency(sampleRate: real, windowSize: nat, i: nat): real
    requires windowSize > 0
  {
    sampleRate / windowSize as real * (i + 1) as real
  }

  /**
   * The thresholds follow pink noise: with a base-2 logarithm, a bin whose
   * frequency plus 2 Hz is twice another's has a threshold 3 dB lower.
   */
  lemma PinkThresholdPerOctave(sampleRate: real, windowSize: nat, i: nat, j: nat, log2: real -> real)
    requires windowSize > 0 && sampleRate >= 0.0
    requires forall x: real :: x > 0.0 ==> log2(2.0 * x) == log2(x) + 1.0
    requires BinFrequency(sampleRate, windowSize, j) + 2.0 == 2.0 * (BinFrequency(sampleRate, windowSize, i) + 2.0)
    ensures PinkThreshold(sampleRate, windowSize, j, log2) == PinkThreshold(sampleRate, windowSize, i, log2) - 3.0
  {
    var x := BinFrequency(sampleRate, windowSize, i) + 2.0;
    assert sampleRate / windowSize as real >= 0.0;
    assert x > 0.0;
    assert log2(2.0 * x) == log2(x) + 1.0;
  }

  /**
   * With a non-negative host rate and a non-decreasing logarithm, the
   * thresholds fall (never rise) from the lowest bin to the highest.
   */
  lemma PinkThresholdFalls(sampleRate: real, windowSize: nat, i: nat, j: nat, log2: real -> real)
    requires windowSize > 0 && sampleRate >= 0.0 && i <= j
    requires forall x: real, y: real :: x <= y ==> log2(x) <= log2(y)
    ensures PinkThreshold(sampleRate, windowSize, j, log2) <= PinkThreshold(sampleRate, windowSize, i, log2)
  {
    var inc := sampleRate / windowSize as real;
    assert inc >= 0.0;
    assert inc * (i + 1) as real <= inc * (j + 1) as real;
  }

  /**
   * The compressors as `update_compressors` leaves them
   * (src/processor.cpp:509-571): every one gets the ratio, attack, release
   * and per-hop sample rate; without a sidechain each also gets the
   * pink-noise threshold of its bin, with one it keeps its threshold.
   */
  function Reconfigured(compressors: seq<Compressor>, ratio: real, attackMs: real, releaseMs: real,
                        sampleRate: real, windowSize: nat, overlap: nat, sidechainActive: bool,
                        log2: real -> real): (r: seq<Compressor>)
    requires windowSize > 0 && overlap > 0
    ensures |r| == |compressors|
    ensures forall i :: 0 <= i < |r| ==>
      && r[i].ratio == ratio && r[i].attackMs == attackMs && r[i].releaseMs == releaseMs
      && r[i].sampleRate * (windowSize as real / overlap as real) == sampleRate
      && r[i].threshold == if sidechainActive then compressors[i].threshold
                           else PinkThreshold(sampleRate, windowSize, i, log2)
  {
    var rate := EffectiveSampleRate(sampleRate, windowSize, overlap);
    seq(|compressors|, i requires 0 <= i < |compressors| =>
      Compressor(if sidechainActive then compressors[i].threshold else PinkThreshold(sampleRate, windowSize, i, log2),
                 ratio, attackMs, releaseMs, rate))
  }

  /**
   * The makeup gain (src/processor.cpp:573-588): the inverse of the overlap,
   * which undoes the gain of adding `overlap` windows on top of each other,
   * times a ratio-dependent factor when automatic makeup gain is on; `log10`
   * is the library logarithm.
   */
  function MakeupGain(overlap: nat, autoMakeupGain: bool, sidechainActive: bool, ratio: real, log10: real -> real)
    : (g: real)
    requires overlap > 0
    ensures !autoMakeupGain ==> g * overlap as real == 1.0
    ensures autoMakeupGain && sidechainActive ==> g * overlap as real == (ratio + 24.0) / 25.0
    ensures autoMakeupGain && !sidechainActive ==> g * overlap as real == log10(ratio * 100.0) * 200.0 - 399.0
  {
    var base := 1.0 / overlap as real;
    if !autoMakeupGain then base
    else if sidechainActive then base * ((ratio + 24.0) / 25.0)
    else base * (log10(ratio * 100.0) * 200.0 - 399.0)
  }

  /**
   * `std::vector::resize(n)`: the first `n` elements kept, and `fill` (the
   * default value) appended up to `n`.
   */
  function Resize<T>(s: seq<T>, n: nat, fill: T): (r: seq<T>)
    ensures |r| == n
    ensures forall i :: 0 <= i < n && i < |s| ==> r[i] == s[i]
    ensures forall i :: |s| <= i < n ==> r[i] == fill
  {
    if n <= |s| then s[..n] else s + seq(n - |s|, _ => fill)
  }
}
