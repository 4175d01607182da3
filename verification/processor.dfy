/**
 * The spectral compressor's audio-thread core: the working set that is
 * rebuilt whenever the window size changes (`ProcessData`), and the processor
 * that streams each host block through the STFT driver `do_stft`, running
 * either the spectral window step (`processBlock`) or the bypass step
 * (`processBlockBypassed`).
 *
 * The driver methods state their effect as an equality between the part of
 * the heap they change, read as one value (`Snapshot` for the rings and the
 * main bus, `State` for these and the compressors), and a function in
 * `Driver` of that value before the call: `WindowEffect` for a window step,
 * `ChunkTransfer` for a chunk, `PreChunk`, `Pass` and `Passes` for the parts
 * of the loop, and `BlockEffect` for the whole block. Beside it, `Streamed`
 * states what the block has streamed so far.
 */
module Processor {

  import opened ModArith
  import opened Ring
  import opened Alignment
  import opened Spectral
  import opened Transfer
  import opened Stft
  import opened WindowSteps
  import opened Driver

  /** `1 << order`. */
  function Pow2(order: nat): (p: nat)
    ensures p >= 1
  {
    if order == 0 then 1 else 2 * Pow2(order - 1)
  }

  /** Every selectable frequency resolution (order 9 and up) gives a window of at least 512 samples. */
  lemma {:induction false} WindowSizeRange(order: nat)
    requires 9 <= order
    ensures 512 <= Pow2(order)
  {
    if order > 9 {
      WindowSizeRange(order - 1);
    } else {
      assert Pow2(9) == 512;
    }
  }

  /**
   * With a window of at least 512 samples and an overlap of 2 to 64 times,
   * the hop lies between 8 samples and half the window.
   */
  lemma HopRange(windowSize: nat, overlap: nat)
    requires windowSize >= 512 && 2 <= overlap <= 64
    ensures 8 <= windowSize / overlap && 2 * (windowSize / overlap) <= windowSize
  {
    var q, r := windowSize / overlap, windowSize % overlap;
    assert windowSize == q * overlap + r;
    if q < 8 {
      MulMono(q, 7, overlap);
      assert false;
    }
    MulMono(2, overlap, q);
  }

  /** `HopRange` for any positive overlap, as an implication. */
  lemma HopBounds(windowSize: nat, overlap: nat)
    requires overlap > 0
    ensures windowSize >= 512 && 2 <= overlap <= 64 ==> 8 <= windowSize / overlap && 2 * (windowSize / overlap) <= windowSize
  {
    if windowSize >= 512 && 2 <= overlap <= 64 {
      HopRange(windowSize, overlap);
    }
  }

  /**
   * A host audio buffer's main bus (`juce::AudioBuffer<float>`): one sample
   * sequence per channel, written in place through the channel's write
   * pointer.
   */
  class AudioBuffer {
    var channels: seq<seq<real>>
    const numSamples: nat

    constructor (channels: seq<seq<real>>, numSamples: nat)
      ensures this.channels == channels && this.numSamples == numSamples
    {
      this.channels := channels;
      this.numSamples := numSamples;
    }
  }

  /**
   * The working set of one window size: the rings, the compressors and their
   * sidechain accumulators, the window table and the scratch buffer, and the
   * count of windows processed since the last rebuild.
   */
  class ProcessData {
    var fftWindowSize: nat
    var numWindowsProcessed: nat
    var windowingTable: seq<real>
    var fftScratchBuffer: seq<real>
    var spectralCompressors: seq<Compressor>
    var sidechainThresholds: seq<real>
    var inputRingBuffers: seq<Ring>
    var outputRingBuffers: seq<Ring>
    var sidechainRingBuffers: seq<Ring>

    /** A working set before its first rebuild: nothing allocated. */
    constructor ()
      ensures fftWindowSize == 0 && numWindowsProcessed == 0
      ensures windowingTable == [] && fftScratchBuffer == []
      ensures spectralCompressors == [] && sidechainThresholds == []
      ensures inputRingBuffers == [] && outputRingBuffers == [] && sidechainRingBuffers == []
    {
      fftWindowSize := 0;
      numWindowsProcessed := 0;
      windowingTable := [];
      fftScratchBuffer := [];
      spectralCompressors := [];
      sidechainThresholds := [];
      inputRingBuffers := [];
      outputRingBuffers := [];
      sidechainRingBuffers := [];
    }

    /** One ring per channel, each a window long, all with the cursor at the same slot. */
    ghost predicate RingsFit(rings: seq<Ring>, channels: nat)
      reads this
    {
      AllSized(rings, channels, fftWindowSize) && LockStep(rings)
    }

    /** Every sidechain accumulator is back at zero. */
    ghost predicate AccumulatorsClear()
      reads this
    {
      forall i :: 0 <= i < |sidechainThresholds| ==> sidechainThresholds[i] == 0.0
    }

    /**
     * Sizes as the rebuild makes them: one compressor and one accumulator
     * per bin below the Nyquist bin, and the rings of each kind in lock step.
     */
    ghost predicate Sized(channels: nat)
      reads this
    {
      && fftWindowSize >= 512 && channels >= 1
      && |windowingTable| == fftWindowSize
      && |fftScratchBuffer| == 2 * fftWindowSize
      && |spectralCompressors| == fftWindowSize / 2
      && |sidechainThresholds| == |spectralCompressors|
      && RingsFit(inputRingBuffers, channels)
      && RingsFit(outputRingBuffers, channels)
      && RingsFit(sidechainRingBuffers, channels)
    }

    /** The invariant of a working set between window steps: sized, with every accumulator at zero. */
    ghost predicate Valid(channels: nat)
      reads this
    {
      Sized(channels) && AccumulatorsClear()
    }
  }

  class SpectralCompressorProcessor {
    // Parameters, as the audio thread reads them.
    var fftOrder: nat
    var windowingOverlapTimes: nat
    var sidechainActive: bool
    var autoMakeupGain: bool
    var compressorRatio: real
    var compressorAttackMs: real
    var compressorReleaseMs: real
    var sampleRate: real
    // Bus layout: the main input and the sidechain have `inputChannels` channels.
    var inputChannels: nat
    var outputChannels: nat
    // Derived state.
    var makeupGain: real
    var compressorSettingsChanged: bool
    const processData: ProcessData

    /**
     * The parameter ranges the plugin declares (src/processor.cpp:88-116) and
     * a bus layout with at least as many outputs as inputs. This is more
     * general than the plugin's layout check, which asks for equal counts.
     */
    ghost predicate ParametersInRange()
      reads this
    {
      && 9 <= fftOrder <= 15
      && 2 <= windowingOverlapTimes <= 64
      && 1 <= inputChannels <= outputChannels
    }

    ghost predicate Valid()
      reads this, processData
    {
      && ParametersInRange()
      && processData.Valid(inputChannels)
    }

    /** `Valid` except that the accumulators may hold a partial sum, as inside the sidechain step. */
    ghost predicate Accumulating()
      reads this, processData
    {
      && ParametersInRange()
      && processData.Sized(inputChannels)
    }

    /** The hop between two windows, `windowing_interval`. */
    function Hop(): (hop: nat)
      reads this`windowingOverlapTimes, processData`fftWindowSize
      requires windowingOverlapTimes > 0
      ensures hop <= processData.fftWindowSize
      ensures processData.fftWindowSize >= 512 && 2 <= windowingOverlapTimes <= 64 ==>
        8 <= hop && 2 * hop <= processData.fftWindowSize
    {
      var windowSize, overlap := processData.fftWindowSize, windowingOverlapTimes;
      DivAtMost(windowSize, overlap);
      HopBounds(windowSize, overlap);
      windowSize / overlap
    }

    /** Has the driver processed enough windows for the output to be valid? */
    predicate GateOpen()
      reads this`windowingOverlapTimes, processData`numWindowsProcessed
    {
      processData.numWindowsProcessed >= windowingOverlapTimes
    }

    /** The main bus has one channel per output channel and the sidechain one per input channel, all one block long. */
    ghost predicate HostBuffers(io: AudioBuffer, sidechain: seq<seq<real>>)
      reads this, io
    {
      && |io.channels| == outputChannels && |sidechain| == inputChannels
      && (forall c :: 0 <= c < |io.channels| ==> |io.channels[c]| == io.numSamples)
      && (forall c :: 0 <= c < |sidechain| ==> |sidechain[c]| == io.numSamples)
    }

    /** The rings and the main bus, as one value. */
    ghost function Snapshot(io: AudioBuffer): Streams
      reads processData`inputRingBuffers, processData`outputRingBuffers
      reads processData`sidechainRingBuffers, io`channels
    {
      Streams(processData.inputRingBuffers, processData.outputRingBuffers, processData.sidechainRingBuffers, io.channels)
    }

    /** The rings, the main bus and the compressors, as one value. */
    ghost function State(io: AudioBuffer): Working
      reads processData`inputRingBuffers, processData`outputRingBuffers
      reads processData`sidechainRingBuffers, processData`spectralCompressors, io`channels
    {
      Working(Snapshot(io), processData.spectralCompressors)
    }

    /** The rings, the bus and the compressors fit the settings the driver runs with. */
    lemma StateFits(io: AudioBuffer, sidechain: seq<seq<real>>, stage: Stage)
      requires Valid() && HostBuffers(io, sidechain) && (stage.Compress? ==> LengthPreserving(stage.dsp))
      ensures Fits(State(io), CurrentSettings(), stage) && Feeds(Snapshot(io), sidechain, io.numSamples)
    {
    }

    /** What the driver reads and never changes. */
    ghost function CurrentSettings(): Settings
      reads this`windowingOverlapTimes, this`makeupGain, this`sidechainActive
      reads processData`fftWindowSize, processData`windowingTable
      requires windowingOverlapTimes > 0
    {
      Settings(Hop(), processData.windowingTable, makeupGain, windowingOverlapTimes, sidechainActive)
    }

    /**
     * A processor with the given parameters and bus layout and an empty
     * working set; the settings-changed flag starts set.
     */
    constructor (fftOrder: nat, overlap: nat, sidechainActive: bool, autoMakeupGain: bool,
                 ratio: real, attackMs: real, releaseMs: real, sampleRate: real,
                 inputChannels: nat, outputChannels: nat)
      ensures this.fftOrder == fftOrder && windowingOverlapTimes == overlap
      ensures this.sidechainActive == sidechainActive && this.autoMakeupGain == autoMakeupGain
      ensures compressorRatio == ratio && compressorAttackMs == attackMs && compressorReleaseMs == releaseMs
      ensures this.sampleRate == sampleRate
      ensures this.inputChannels == inputChannels && this.outputChannels == outputChannels
      ensures compressorSettingsChanged && makeupGain == 0.0
      ensures fresh(processData) && processData.fftWindowSize == 0 && processData.sidechainThresholds == []
      ensures processData.spectralCompressors == [] && processData.fftScratchBuffer == []
    {
      this.fftOrder := fftOrder;
      windowingOverlapTimes := overlap;
      this.sidechainActive := sidechainActive;
      this.autoMakeupGain := autoMakeupGain;
      compressorRatio := ratio;
      compressorAttackMs := attackMs;
      compressorReleaseMs := releaseMs;
      this.sampleRate := sampleRate;
      this.inputChannels := inputChannels;
      this.outputChannels := outputChannels;
      makeupGain := 0.0;
      compressorSettingsChanged := true;
      processData := new ProcessData();
    }

    // -------------------------------------------------------------------------
    // Rebuilding the working set
    // -------------------------------------------------------------------------

    /**
     * `update_and_swap_process_data` (src/processor.cpp:463-507): size the
     * working set for the window `1 << fftOrder`, reset the processed-window
     * count, install the window table `hann`, give every input channel a
     * silent input, output and sidechain ring of one window, and raise the
     * settings-changed flag so that the next block reconfigures the
     * compressors.
     */
    method UpdateAndSwapProcessData(hann: seq<real>)
      requires ParametersInRange() && processData.AccumulatorsClear()
      requires |hann| == Pow2(fftOrder)
      modifies processData, this`compressorSettingsChanged
      ensures Valid()
      ensures processData.fftWindowSize == Pow2(fftOrder) && processData.numWindowsProcessed == 0
      ensures processData.windowingTable == hann
      ensures processData.fftScratchBuffer == Resize(old(processData.fftScratchBuffer), 2 * Pow2(fftOrder), 0.0)
      ensures processData.spectralCompressors
        == Resize(old(processData.spectralCompressors), Pow2(fftOrder) / 2, DefaultCompressor)
      ensures processData.sidechainThresholds == Zeros(Pow2(fftOrder) / 2)
      ensures forall c :: 0 <= c < inputChannels ==>
        && processData.inputRingBuffers[c] == Create(Pow2(fftOrder))
        && processData.outputRingBuffers[c] == Create(Pow2(fftOrder))
        && processData.sidechainRingBuffers[c] == Create(Pow2(fftOrder))
      ensures compressorSettingsChanged
    {
      WindowSizeRange(fftOrder);
      var windowSize := Pow2(fftOrder);
      processData.fftWindowSize := windowSize;
      processData.numWindowsProcessed := 0;
      processData.windowingTable := hann;
      processData.fftScratchBuffer := Resize(processData.fftScratchBuffer, windowSize * 2, 0.0);
      processData.spectralCompressors := Resize(processData.spectralCompressors, windowSize / 2, DefaultCompressor);
      processData.sidechainThresholds := Resize(processData.sidechainThresholds, |processData.spectralCompressors|, 0.0);
      assert processData.sidechainThresholds == Zeros(windowSize / 2);
      var silentRing := Create(windowSize);
      processData.inputRingBuffers := seq(inputChannels, _ => silentRing);
      processData.outputRingBuffers := seq(inputChannels, _ => silentRing);
      processData.sidechainRingBuffers := seq(inputChannels, _ => silentRing);
      compressorSettingsChanged := true;
    }

    // -------------------------------------------------------------------------
    // Compressor settings
    // -------------------------------------------------------------------------

    /**
     * `update_compressors` (src/processor.cpp:509-589): every compressor gets
     * the ratio, attack and release parameters and the per-hop sample rate;
     * without a sidechain each gets the pink-noise threshold of its bin; the
     * makeup gain is recomputed. `log2` and `log10` are the library
     * logarithms.
     */
    method UpdateCompressors(log2: real -> real, log10: real -> real)
      requires Valid()
      modifies processData`spectralCompressors, this`makeupGain
      ensures Valid()
      ensures |processData.spectralCompressors| == |old(processData.spectralCompressors)|
      ensures forall i :: 0 <= i < |processData.spectralCompressors| ==>
        && processData.spectralCompressors[i].ratio == compressorRatio
        && processData.spectralCompressors[i].attackMs == compressorAttackMs
        && processData.spectralCompressors[i].releaseMs == compressorReleaseMs
        && processData.spectralCompressors[i].sampleRate
             == EffectiveSampleRate(sampleRate, processData.fftWindowSize, windowingOverlapTimes)
        && processData.spectralCompressors[i].threshold
             == if sidechainActive then old(processData.spectralCompressors[i].threshold)
                else PinkThreshold(sampleRate, processData.fftWindowSize, i, log2)
      ensures makeupGain == MakeupGain(windowingOverlapTimes, autoMakeupGain, sidechainActive, compressorRatio, log10)
      ensures processData.spectralCompressors
        == Reconfigured(old(processData.spectralCompressors), compressorRatio, compressorAttackMs, compressorReleaseMs,
                        sampleRate, processData.fftWindowSize, windowingOverlapTimes, sidechainActive, log2)
    {
      var effectiveRate := EffectiveSampleRate(sampleRate, processData.fftWindowSize, windowingOverlapTimes);
      ghost var before := processData.spectralCompressors;
      var i := 0;
      while i < |processData.spectralCompressors|
        invariant i <= |processData.spectralCompressors| == |before|
        invariant forall k :: 0 <= k < |before| ==>
          processData.spectralCompressors[k]
            == if k < i then before[k].(ratio := compressorRatio, attackMs := compressorAttackMs,
                                        releaseMs := compressorReleaseMs, sampleRate := effectiveRate)
               else before[k]
      {
        var compressor := processData.spectralCompressors[i];
        compressor := compressor.(ratio := compressorRatio, attackMs := compressorAttackMs,
                                  releaseMs := compressorReleaseMs, sampleRate := effectiveRate);
        processData.spectralCompressors := processData.spectralCompressors[i := compressor];
        i := i + 1;
      }
      if !sidechainActive {
        ghost var configured := processData.spectralCompressors;
        i := 0;
        while i < |processData.spectralCompressors|
          invariant i <= |processData.spectralCompressors| == |configured|
          invariant forall k :: 0 <= k < |configured| ==>
            processData.spectralCompressors[k]
              == if k < i then configured[k].(threshold := PinkThreshold(sampleRate, processData.fftWindowSize, k, log2))
                 else configured[k]
        {
          var threshold := PinkThreshold(sampleRate, processData.fftWindowSize, i, log2);
          processData.spectralCompressors := processData.spectralCompressors[i :=
            processData.spectralCompressors[i].(threshold := threshold)];
          i := i + 1;
        }
      }
      makeupGain := MakeupGain(windowingOverlapTimes, autoMakeupGain, sidechainActive, compressorRatio, log10);
    }

    // -------------------------------------------------------------------------
    // The window steps
    // -------------------------------------------------------------------------

    /**
     * The bypass window step (src/processor.cpp:276-290): for every input
     * channel the newest hop of input overwrites the hop at the output
     * cursor.
     */
    method BypassWindowStep()
      requires Valid()
      modifies processData`outputRingBuffers
      ensures Valid()
      ensures processData.outputRingBuffers
        == BypassOutputs(processData.inputRingBuffers, old(processData.outputRingBuffers), Hop(), inputChannels,
                         processData.fftWindowSize)
    {
      var hop := Hop();
      HopRange(processData.fftWindowSize, windowingOverlapTimes);
      ghost var before := processData.outputRingBuffers;
      var c := 0;
      while c < inputChannels
        invariant c <= inputChannels
        invariant processData.outputRingBuffers
          == BypassOutputs(processData.inputRingBuffers, before, hop, c, processData.fftWindowSize)
      {
        BypassOutputsStep(processData.inputRingBuffers, before, hop, c, processData.fftWindowSize);
        var newest := CopyLastNTo(processData.inputRingBuffers[c], hop);
        processData.outputRingBuffers := processData.outputRingBuffers[c :=
          ReadNFromInPlace(processData.outputRingBuffers[c], newest, hop)];
        c := c + 1;
      }
    }

    /** Accumulator `k` holds the magnitude of bin `k + 1` summed over the first `channels` channels. */
    ghost predicate Accumulated(mags: seq<seq<real>>, channels: nat)
      reads processData
    {
      && channels <= |mags|
      && (forall c :: 0 <= c < |mags| ==> |processData.sidechainThresholds| < |mags[c]|)
      && forall k :: 0 <= k < |processData.sidechainThresholds| ==>
           processData.sidechainThresholds[k] == ColumnSum(mags, k + 1, channels)
    }

    /**
     * Add the magnitude of every bin but the DC bin of `spectrum` into the
     * accumulator below it (src/processor.cpp:327-342); `row` holds the
     * magnitudes.
     */
    method AddMagnitudes(dsp: Dsp, spectrum: seq<Complex>, ghost row: seq<real>)
      requires |processData.sidechainThresholds| < |row| <= |spectrum|
      requires forall b :: 0 <= b < |row| ==> row[b] == dsp.magnitude(spectrum[b])
      modifies processData`sidechainThresholds
      ensures processData.sidechainThresholds
        == AddBins(old(processData.sidechainThresholds), row, |old(processData.sidechainThresholds)|)
    {
      ghost var acc := processData.sidechainThresholds;
      var bins := |processData.sidechainThresholds|;
      var i := 0;
      while i < bins
        invariant i <= bins == |acc|
        invariant processData.sidechainThresholds == AddBins(acc, row, i)
      {
        AddBinsStep(acc, row, i);
        var magnitude := dsp.magnitude(spectrum[i + 1]);
        processData.sidechainThresholds := processData.sidechainThresholds[i :=
          processData.sidechainThresholds[i] + magnitude];
        i := i + 1;
      }
    }

    /**
     * Add the magnitude of every bin of channel `c`'s newest sidechain window
     * into its accumulator (src/processor.cpp:314-343).
     */
    method AccumulateSidechainChannel(dsp: Dsp, c: nat, ghost mags: seq<seq<real>>)
      requires Accumulating() && LengthPreserving(dsp) && c < inputChannels
      requires c < |mags| && mags[c] == BinMagnitudes(dsp, View(processData.sidechainRingBuffers[c]))
      requires Accumulated(mags, c)
      modifies processData`sidechainThresholds
      ensures Accumulating()
      ensures Accumulated(mags, c + 1)
    {
      var spectrum := dsp.forward(CopyLastNTo(processData.sidechainRingBuffers[c], processData.fftWindowSize));
      ghost var acc := processData.sidechainThresholds;
      AddMagnitudes(dsp, spectrum, mags[c]);
      AddBinsAccumulates(acc, mags, c);
    }

    /** Sum every bin's magnitude over the channels into the accumulators (src/processor.cpp:314-343). */
    method AccumulateSidechain(dsp: Dsp, ghost mags: seq<seq<real>>)
      requires Valid() && LengthPreserving(dsp)
      requires mags == SidechainMagnitudes(dsp, processData.sidechainRingBuffers, processData.fftWindowSize)
      modifies processData`sidechainThresholds
      ensures Accumulating()
      ensures Accumulated(mags, inputChannels)
    {
      assert |mags| == inputChannels;
      assert forall d :: 0 <= d < |mags| ==> |mags[d]| == processData.fftWindowSize;
      assert Accumulated(mags, 0);
      AccumulateChannels(dsp, mags);
    }

    /** The channel loop of `AccumulateSidechain`, from accumulators at zero. */
    method AccumulateChannels(dsp: Dsp, ghost mags: seq<seq<real>>)
      requires Accumulating() && LengthPreserving(dsp) && |mags| == inputChannels
      requires forall d :: 0 <= d < |mags| ==> mags[d] == BinMagnitudes(dsp, View(processData.sidechainRingBuffers[d]))
      requires Accumulated(mags, 0)
      modifies processData`sidechainThresholds
      ensures Accumulating()
      ensures Accumulated(mags, inputChannels)
    {
      for c := 0 to inputChannels
        invariant Accumulating()
        invariant Accumulated(mags, c)
      {
        AccumulateSidechainChannel(dsp, c, mags);
      }
    }

    /**
     * Set each compressor's threshold to its accumulator divided by the
     * channel count, and reset the accumulator (src/processor.cpp:344-356).
     */
    method ApplySidechainThresholds(ghost mags: seq<seq<real>>)
      requires Accumulating() && |mags| == inputChannels
      requires Accumulated(mags, inputChannels)
      modifies processData`spectralCompressors, processData`sidechainThresholds
      ensures Valid()
      ensures processData.spectralCompressors
        == WithSidechainThresholds(old(processData.spectralCompressors), mags, |processData.spectralCompressors|)
    {
      ghost var before := processData.spectralCompressors;
      ghost var sums := processData.sidechainThresholds;
      var bins := |processData.spectralCompressors|;
      var i := 0;
      while i < bins
        invariant i <= bins
        invariant processData.spectralCompressors == WithSidechainThresholds(before, mags, i)
        invariant processData.sidechainThresholds == ClearedBelow(sums, i)
      {
        WithSidechainThresholdsStep(before, mags, i);
        var threshold := processData.sidechainThresholds[i] / (inputChannels as real);
        assert threshold == ChannelMean(mags, i + 1);
        processData.spectralCompressors := processData.spectralCompressors[i :=
          processData.spectralCompressors[i].(threshold := threshold)];
        processData.sidechainThresholds := processData.sidechainThresholds[i := 0.0];
        i := i + 1;
      }
    }

    /**
     * The sidechain part of the spectral window step
     * (src/processor.cpp:313-356): sum every bin's magnitude of the newest
     * sidechain window over the channels into the accumulators, set each
     * compressor's threshold to the mean, and clear the accumulators again.
     */
    method SetSidechainThresholds(dsp: Dsp)
      requires Valid() && LengthPreserving(dsp)
      modifies processData`spectralCompressors, processData`sidechainThresholds
      ensures Valid()
      ensures processData.spectralCompressors
        == WithSidechainThresholds(old(processData.spectralCompressors),
             SidechainMagnitudes(dsp, processData.sidechainRingBuffers, processData.fftWindowSize),
             |processData.spectralCompressors|)
    {
      ghost var mags := SidechainMagnitudes(dsp, processData.sidechainRingBuffers, processData.fftWindowSize);
      AccumulateSidechain(dsp, mags);
      ApplySidechainThresholds(mags);
    }

    /**
     * The compression part of the spectral window step
     * (src/processor.cpp:358-423): for every input channel, window the newest
     * window of input, transform it, scale each bin by its compressor's gain,
     * transform back, window again and add the frame, times the makeup gain,
     * into the output ring at its cursor.
     */
    method CompressChannels(dsp: Dsp)
      requires Valid() && LengthPreserving(dsp)
      modifies processData`outputRingBuffers
      ensures Valid()
      ensures processData.outputRingBuffers
        == CompressedOutputs(dsp, processData.windowingTable, processData.spectralCompressors, makeupGain,
                             processData.inputRingBuffers, old(processData.outputRingBuffers), inputChannels)
    {
      var windowSize := processData.fftWindowSize;
      ghost var before := processData.outputRingBuffers;
      var c := 0;
      while c < inputChannels
        invariant c <= inputChannels
        invariant processData.outputRingBuffers
          == CompressedOutputs(dsp, processData.windowingTable, processData.spectralCompressors, makeupGain,
                               processData.inputRingBuffers, before, c)
      {
        CompressedOutputsStep(dsp, processData.windowingTable, processData.spectralCompressors, makeupGain,
                              processData.inputRingBuffers, before, c);
        var recent := CopyLastNTo(processData.inputRingBuffers[c], windowSize);
        var spectrum := dsp.forward(Windowed(recent, processData.windowingTable));
        var compressed := ApplyBinGains(spectrum, processData.spectralCompressors, c, dsp);
        var frame := Windowed(dsp.inverse(compressed), processData.windowingTable);
        assert frame == SynthesisFrame(dsp, processData.windowingTable, recent, processData.spectralCompressors, c);
        processData.outputRingBuffers := processData.outputRingBuffers[c :=
          AddNFromInPlace(processData.outputRingBuffers[c], frame, windowSize, makeupGain)];
        c := c + 1;
      }
    }

    /**
     * The spectral window step (src/processor.cpp:309-424): the sidechain
     * thresholds when sidechaining is active, then the compression of every
     * input channel with the compressors as they now are.
     */
    method SpectralWindowStep(dsp: Dsp)
      requires Valid() && LengthPreserving(dsp)
      modifies processData`outputRingBuffers, processData`spectralCompressors, processData`sidechainThresholds
      ensures Valid()
      ensures processData.spectralCompressors
        == if sidechainActive
           then WithSidechainThresholds(old(processData.spectralCompressors),
                  SidechainMagnitudes(dsp, processData.sidechainRingBuffers, processData.fftWindowSize),
                  |processData.spectralCompressors|)
           else old(processData.spectralCompressors)
      ensures processData.outputRingBuffers
        == CompressedOutputs(dsp, processData.windowingTable, processData.spectralCompressors, makeupGain,
                             processData.inputRingBuffers, old(processData.outputRingBuffers), inputChannels)
    {
      if sidechainActive {
        SetSidechainThresholds(dsp);
      }
      CompressChannels(dsp);
    }

    /** `process_fn`: the window step of the stage being run. */
    method WindowStep(stage: Stage)
      requires Valid()
      requires stage.Compress? ==> LengthPreserving(stage.dsp)
      modifies processData`outputRingBuffers, processData`spectralCompressors, processData`sidechainThresholds
      ensures Valid()
      ensures SamePlaces(old(processData.outputRingBuffers), processData.outputRingBuffers)
      ensures stage.Bypass? ==>
        && processData.spectralCompressors == old(processData.spectralCompressors)
        && processData.outputRingBuffers
             == BypassOutputs(processData.inputRingBuffers, old(processData.outputRingBuffers), Hop(), inputChannels,
                              processData.fftWindowSize)
      ensures stage.Compress? ==>
        && processData.spectralCompressors
             == (if sidechainActive
                 then WithSidechainThresholds(old(processData.spectralCompressors),
                        SidechainMagnitudes(stage.dsp, processData.sidechainRingBuffers, processData.fftWindowSize),
                        |processData.spectralCompressors|)
                 else old(processData.spectralCompressors))
        && processData.outputRingBuffers
             == CompressedOutputs(stage.dsp, processData.windowingTable, processData.spectralCompressors, makeupGain,
                                  processData.inputRingBuffers, old(processData.outputRingBuffers), inputChannels)
    {
      match stage
      case Bypass => BypassWindowStep();
      case Compress(dsp) => SpectralWindowStep(dsp);
    }

    // -------------------------------------------------------------------------
    // The STFT driver
    // -------------------------------------------------------------------------

    /** The chunk transfer of one channel `c`; see `TransferChunk`. */
    method TransferChannel(io: AudioBuffer, side: seq<real>, c: nat, offset: nat, n: nat)
      requires Snapshot(io).Shaped(processData.fftWindowSize) && Snapshot(io).Holds(offset, n)
      requires c < |processData.inputRingBuffers| && n <= processData.fftWindowSize && n <= |side|
      modifies processData`inputRingBuffers, processData`outputRingBuffers, processData`sidechainRingBuffers, io
      ensures Snapshot(io)
        == ChannelTransfer(old(Snapshot(io)), side, c, offset, n, GateOpen(), sidechainActive, processData.fftWindowSize)
    {
      var input := io.channels[c][offset..offset + n];
      processData.inputRingBuffers := processData.inputRingBuffers[c :=
        ReadNFrom(processData.inputRingBuffers[c], input, n)];
      if GateOpen() {
        var played := CopyNTo(processData.outputRingBuffers[c], n, true);
        processData.outputRingBuffers := processData.outputRingBuffers[c := played.1];
        io.channels := io.channels[c := Splice(io.channels[c], offset, played.0)];
      } else {
        io.channels := io.channels[c := Splice(io.channels[c], offset, Zeros(n))];
      }
      if sidechainActive {
        processData.sidechainRingBuffers := processData.sidechainRingBuffers[c :=
          ReadNFrom(processData.sidechainRingBuffers[c], side, n)];
      }
    }

    /** The chunk transfer of channel `c` after the channels below it, as the loop of `TransferChunk` does it. */
    method TransferNextChannel(io: AudioBuffer, sides: seq<seq<real>>, ghost start: Streams, c: nat, offset: nat, n: nat)
      requires start.Shaped(processData.fftWindowSize) && start.Holds(offset, n) && SidesFit(start, sides, n)
      requires c < |start.inputs| && n <= processData.fftWindowSize
      requires Snapshot(io)
        == ChunkTransfer(start, sides, c, offset, n, GateOpen(), sidechainActive, processData.fftWindowSize)
      modifies processData`inputRingBuffers, processData`outputRingBuffers, processData`sidechainRingBuffers, io
      ensures Snapshot(io)
        == ChunkTransfer(start, sides, c + 1, offset, n, GateOpen(), sidechainActive, processData.fftWindowSize)
    {
      ChunkTransferStep(start, sides, c, offset, n, GateOpen(), sidechainActive, processData.fftWindowSize);
      TransferChannel(io, sides[c], c, offset, n);
    }

    /**
     * One chunk of `n` samples at `offset` for every input channel
     * (src/processor.cpp:641-657, 676-693), channel by channel; `sides` holds
     * each channel's sidechain samples of the chunk.
     */
    method TransferChunk(io: AudioBuffer, sides: seq<seq<real>>, offset: nat, n: nat)
      requires Snapshot(io).Shaped(processData.fftWindowSize) && Snapshot(io).Holds(offset, n)
      requires SidesFit(Snapshot(io), sides, n)
      requires |processData.inputRingBuffers| == inputChannels && n <= processData.fftWindowSize
      modifies processData`inputRingBuffers, processData`outputRingBuffers, processData`sidechainRingBuffers, io
      ensures Snapshot(io)
        == ChunkTransfer(old(Snapshot(io)), sides, inputChannels, offset, n, GateOpen(), sidechainActive,
                         processData.fftWindowSize)
    {
      ghost var start, gate, cap := Snapshot(io), GateOpen(), processData.fftWindowSize;
      var c := 0;
      while c < inputChannels
        invariant c <= inputChannels && gate == GateOpen() && cap == processData.fftWindowSize
        invariant Snapshot(io) == ChunkTransfer(start, sides, c, offset, n, gate, sidechainActive, cap)
      {
        TransferNextChannel(io, sides, start, c, offset, n);
        c := c + 1;
      }
    }

    /**
     * A chunk transfer as the driver performs it, continuing the stream of a
     * block that started as `s0`.
     */
    method StreamChunk(io: AudioBuffer, sidechain: seq<seq<real>>, offset: nat, len: nat,
                       ghost s0: Streams, ghost silent: nat) returns (end: nat)
      requires Valid() && HostBuffers(io, sidechain)
      requires ChunkAllowed(Snapshot(io), s0, sidechain, offset, len, silent, GateOpen(), sidechainActive,
                            processData.fftWindowSize)
      requires LockStep(s0.inputs) && LockStep(s0.outputs) && LockStep(s0.sidechains)
      modifies processData`inputRingBuffers, processData`outputRingBuffers, processData`sidechainRingBuffers, io
      ensures Valid() && HostBuffers(io, sidechain)
      ensures end == offset + len
      ensures Streamed(Snapshot(io), s0, sidechain, end, silent, sidechainActive, processData.fftWindowSize)
      ensures Snapshot(io)
        == ChunkTransfer(old(Snapshot(io)), Chunks(sidechain, inputChannels, offset, len), inputChannels, offset, len,
                         GateOpen(), sidechainActive, processData.fftWindowSize)
    {
      end := offset + len;
      ghost var next := NextChunk(Snapshot(io), s0, sidechain, offset, len, silent, GateOpen(), sidechainActive,
                                  processData.fftWindowSize);
      ChunkKeepsStream(Snapshot(io), s0, sidechain, offset, len, end, silent, GateOpen(), sidechainActive,
                       processData.fftWindowSize);
      var sides := Chunks(sidechain, inputChannels, offset, len);
      TransferChunk(io, sides, offset, len);
      assert Snapshot(io) == next;
      StreamedKeepsLockStep(Snapshot(io), s0, sidechain, end, silent, sidechainActive, processData.fftWindowSize);
    }

    /** Zero out the channels past the input channels (src/processor.cpp:606-609). */
    method SilenceUnusedChannels(io: AudioBuffer)
      requires |io.channels| == outputChannels
      modifies io
      ensures io.channels == SilenceFrom(old(io.channels), inputChannels)
    {
      var c := inputChannels;
      while c < outputChannels
        invariant |io.channels| == outputChannels
        invariant forall d :: 0 <= d < outputChannels ==>
          io.channels[d] == if inputChannels <= d < c then Zeros(|old(io.channels)[d]|) else old(io.channels)[d]
      {
        io.channels := io.channels[c := Zeros(|io.channels[c]|)];
        c := c + 1;
      }
    }

    /**
     * Run the window step and count the window (src/processor.cpp:666-670).
     * The window step moves no cursor, so the stream so far is unaffected.
     */
    method ProcessWindow(io: AudioBuffer, sidechain: seq<seq<real>>, stage: Stage, ghost s0: Streams, offset: nat,
                         ghost silent: nat, ghost cfg: Settings, ghost before: Working)
      requires Valid() && (stage.Compress? ==> LengthPreserving(stage.dsp))
      requires cfg == CurrentSettings() && before == State(io)
      requires Streamed(Snapshot(io), s0, sidechain, offset, silent, sidechainActive, processData.fftWindowSize)
      modifies processData`outputRingBuffers, processData`spectralCompressors, processData`sidechainThresholds
      modifies processData`numWindowsProcessed
      ensures Valid() && processData.numWindowsProcessed == old(processData.numWindowsProcessed) + 1
      ensures Streamed(Snapshot(io), s0, sidechain, offset, silent, sidechainActive, processData.fftWindowSize)
      ensures State(io) == WindowEffect(stage, cfg, before)
    {
      ghost var before := Snapshot(io);
      WindowStep(stage);
      StreamedOutputsRewritten(before, s0, sidechain, offset, silent, sidechainActive, processData.fftWindowSize,
                               processData.outputRingBuffers);
      assert Snapshot(io) == before.(outputs := processData.outputRingBuffers);
      processData.numWindowsProcessed := processData.numWindowsProcessed + 1;
    }

    /**
     * The state of the window loop of `do_stft` before pass `j`: the block
     * started as `s0`, with the input cursor of channel 0 at `pos` and
     * `windowsBefore` windows processed; `j` windows have been processed in
     * this block; the block has been streamed up to `offset`, the start of
     * loop chunk `j`; and `cursors` holds the input cursor at each window
     * step so far.
     */
    ghost predicate WindowLoop(io: AudioBuffer, sidechain: seq<seq<real>>, s0: Streams, silent: nat, pos: nat, hop: nat,
                               windowsBefore: nat, j: nat, offset: nat, cursors: seq<nat>)
      reads this, processData, io
    {
      && Valid() && HostBuffers(io, sidechain)
      && 0 < hop <= processData.fftWindowSize
      && j <= WindowsToProcess(io.numSamples, pos, hop)
      && processData.numWindowsProcessed == windowsBefore + j
      && offset == Min(io.numSamples, ChunkStart(io.numSamples, pos, hop, j))
      && silent == SilentPrefix(io.numSamples, pos, hop, windowsBefore, windowingOverlapTimes)
      && |s0.inputs| == inputChannels && LockStep(s0.inputs) && LockStep(s0.outputs) && LockStep(s0.sidechains)
      && (forall c :: 0 <= c < |s0.io| ==> |s0.io[c]| == io.numSamples)
      && s0.inputs[0].pos == pos
      && Streamed(Snapshot(io), s0, sidechain, offset, silent, sidechainActive, processData.fftWindowSize)
      && cursors == WindowSlots(io.numSamples, pos, hop, processData.fftWindowSize, j)
    }

    /**
     * Pass `j` of the driver loop (src/processor.cpp:664-697): run the window
     * step, count the window, then stream loop chunk `j`, the next hop or
     * what is left of the block, with the gate as the new count sets it.
     */
    method RunPass(io: AudioBuffer, sidechain: seq<seq<real>>, stage: Stage, pos: nat, hop: nat,
                   ghost s0: Streams, ghost silent: nat, ghost windowsBefore: nat, j: nat, offset: nat,
                   ghost cfg: Settings, ghost before: Working)
      returns (end: nat)
      requires Valid() && HostBuffers(io, sidechain) && (stage.Compress? ==> LengthPreserving(stage.dsp))
      requires hop == Hop() && j < WindowsToProcess(io.numSamples, pos, hop)
      requires offset == Min(io.numSamples, ChunkStart(io.numSamples, pos, hop, j))
      requires processData.numWindowsProcessed == windowsBefore + j
      requires silent == SilentPrefix(io.numSamples, pos, hop, windowsBefore, windowingOverlapTimes)
      requires |s0.inputs| == inputChannels && LockStep(s0.inputs) && LockStep(s0.outputs) && LockStep(s0.sidechains)
      requires forall c :: 0 <= c < |s0.io| ==> |s0.io[c]| == io.numSamples
      requires Streamed(Snapshot(io), s0, sidechain, offset, silent, sidechainActive, processData.fftWindowSize)
      requires cfg == CurrentSettings() && before == State(io)
      requires Fits(before, cfg, stage) && Feeds(before.streams, sidechain, io.numSamples)
      modifies processData`inputRingBuffers, processData`outputRingBuffers, processData`sidechainRingBuffers
      modifies processData`numWindowsProcessed, processData`spectralCompressors, processData`sidechainThresholds, io
      ensures Valid() && HostBuffers(io, sidechain)
      ensures processData.numWindowsProcessed == windowsBefore + j + 1
      ensures end == Min(io.numSamples, ChunkStart(io.numSamples, pos, hop, j + 1))
      ensures Streamed(Snapshot(io), s0, sidechain, end, silent, sidechainActive, processData.fftWindowSize)
      ensures State(io) == Pass(stage, cfg, before, sidechain, io.numSamples, pos, windowsBefore, j)
    {
      LoopChunkGated(io.numSamples, pos, hop, windowsBefore, windowingOverlapTimes, j, offset);
      var len := Min(hop, io.numSamples - offset);
      ProcessWindow(io, sidechain, stage, s0, offset, silent, cfg, before);
      ghost var stepped := State(io);
      end := StreamChunk(io, sidechain, offset, len, s0, silent);
      PassTransfersChunk(stage, cfg, before, stepped, sidechain, io.numSamples, pos, windowsBefore, j, offset, len,
                         GateOpen());
    }

    /**
     * One pass of the driver loop, keeping the loop state: the input cursor
     * at the window step is recorded in `endCursors`.
     */
    method StreamWindow(io: AudioBuffer, sidechain: seq<seq<real>>, stage: Stage, pos: nat, hop: nat,
                        ghost s0: Streams, ghost silent: nat, ghost windowsBefore: nat, j: nat, offset: nat,
                        ghost cursors: seq<nat>, ghost cfg: Settings, ghost before: Working)
      returns (end: nat, ghost endCursors: seq<nat>)
      requires WindowLoop(io, sidechain, s0, silent, pos, hop, windowsBefore, j, offset, cursors) && hop == Hop()
      requires j < WindowsToProcess(io.numSamples, pos, hop)
      requires cfg == CurrentSettings() && before == State(io)
      requires Fits(before, cfg, stage) && Feeds(before.streams, sidechain, io.numSamples)
      modifies processData`inputRingBuffers, processData`outputRingBuffers, processData`sidechainRingBuffers
      modifies processData`numWindowsProcessed, processData`spectralCompressors, processData`sidechainThresholds, io
      ensures WindowLoop(io, sidechain, s0, silent, pos, hop, windowsBefore, j + 1, end, endCursors)
      ensures State(io) == Pass(stage, cfg, before, sidechain, io.numSamples, pos, windowsBefore, j)
    {
      LoopChunkGated(io.numSamples, pos, hop, windowsBefore, windowingOverlapTimes, j, offset);
      ghost var cursor := processData.inputRingBuffers[0].pos;
      assert cursor == (pos + ChunkStart(io.numSamples, pos, hop, j)) % processData.fftWindowSize;
      endCursors := cursors + [cursor];
      assert endCursors == WindowSlots(io.numSamples, pos, hop, processData.fftWindowSize, j + 1);
      end := RunPass(io, sidechain, stage, pos, hop, s0, silent, windowsBefore, j, offset, cfg, before);
    }

    /**
     * `do_stft` (src/processor.cpp:591-699): silence the channels past the
     * input channels; stream the samples up to the next hop boundary of the
     * input cursor; then, once per hop, run the window step and stream the
     * next hop (or what is left of the block). The ghost `windowCursors`
     * records the input cursor of channel 0 at each window step: the window
     * starts of the block, on a hop boundary whenever the hop divides the
     * window size.
     */
    method DoStft(io: AudioBuffer, sidechain: seq<seq<real>>, stage: Stage, ghost cfg: Settings, ghost before: Working)
      returns (ghost windowCursors: seq<nat>)
      requires Valid() && HostBuffers(io, sidechain)
      requires stage.Compress? ==> LengthPreserving(stage.dsp)
      requires cfg == CurrentSettings() && before == State(io)
      modifies processData`inputRingBuffers, processData`outputRingBuffers, processData`sidechainRingBuffers
      modifies processData`numWindowsProcessed, processData`spectralCompressors, processData`sidechainThresholds, io
      ensures Valid() && HostBuffers(io, sidechain)
      ensures BlockStreamed(Snapshot(io), old(Snapshot(io)), sidechain, io.numSamples, Hop(),
                            old(processData.numWindowsProcessed), processData.numWindowsProcessed,
                            windowingOverlapTimes, sidechainActive, processData.fftWindowSize)
      ensures State(io) == BlockEffect(stage, cfg, before, sidechain, io.numSamples, old(processData.numWindowsProcessed))
      ensures windowCursors
        == WindowSlots(io.numSamples, old(processData.inputRingBuffers[0].pos), Hop(), processData.fftWindowSize,
                       WindowsToProcess(io.numSamples, old(processData.inputRingBuffers[0].pos), Hop()))
      ensures processData.fftWindowSize % Hop() == 0 ==>
        forall k :: 0 <= k < |windowCursors| ==> IsBoundary(windowCursors[k], Hop())
    {
      ghost var pos, hop, cap := processData.inputRingBuffers[0].pos, Hop(), processData.fftWindowSize;
      SilenceUnusedChannels(io);
      windowCursors := StreamBlock(io, sidechain, stage, cfg, State(io));
      if cap % hop == 0 {
        WindowSlotsOnBoundaries(io.numSamples, pos, hop, cap);
      }
    }

    /**
     * The streaming part of `do_stft` (src/processor.cpp:611-697): the samples
     * up to the next hop boundary of the input cursor, then the window loop.
     */
    method StreamBlock(io: AudioBuffer, sidechain: seq<seq<real>>, stage: Stage, ghost cfg: Settings,
                       ghost before: Working)
      returns (ghost windowCursors: seq<nat>)
      requires Valid() && HostBuffers(io, sidechain)
      requires stage.Compress? ==> LengthPreserving(stage.dsp)
      requires cfg == CurrentSettings() && before == State(io)
      modifies processData`inputRingBuffers, processData`outputRingBuffers, processData`sidechainRingBuffers
      modifies processData`numWindowsProcessed, processData`spectralCompressors, processData`sidechainThresholds, io
      ensures Valid() && HostBuffers(io, sidechain)
      ensures processData.numWindowsProcessed == old(processData.numWindowsProcessed)
        + WindowsToProcess(io.numSamples, before.streams.inputs[0].pos, cfg.hop)
      ensures Streamed(Snapshot(io), before.streams, sidechain, io.numSamples,
                       SilentPrefix(io.numSamples, before.streams.inputs[0].pos, cfg.hop,
                                    old(processData.numWindowsProcessed), cfg.overlap),
                       cfg.sidechainActive, |cfg.table|)
      ensures State(io)
        == Passes(stage, cfg, before, sidechain, io.numSamples, old(processData.numWindowsProcessed),
                  WindowsToProcess(io.numSamples, before.streams.inputs[0].pos, cfg.hop))
      ensures windowCursors
        == WindowSlots(io.numSamples, before.streams.inputs[0].pos, cfg.hop, |cfg.table|,
                       WindowsToProcess(io.numSamples, before.streams.inputs[0].pos, cfg.hop))
    {
      ghost var s0, compressors0 := Snapshot(io), processData.spectralCompressors;
      var pos := processData.inputRingBuffers[0].pos;
      var hop := Hop();
      ghost var windowsBefore := processData.numWindowsProcessed;
      ghost var silent := SilentPrefix(io.numSamples, pos, hop, windowsBefore, windowingOverlapTimes);
      StateFits(io, sidechain, stage);
      var offset := StreamPreChunk(io, sidechain, stage, cfg, before);
      windowCursors := StreamWindows(io, sidechain, stage, pos, hop, s0, compressors0, silent, windowsBefore, offset, cfg);
    }

    /**
     * The samples before the first window of the block
     * (src/processor.cpp:619-662): up to the next hop boundary of the input
     * cursor, or the whole block if it ends first. They lie inside the
     * silent prefix while the gate is closed.
     */
    method StreamPreChunk(io: AudioBuffer, sidechain: seq<seq<real>>, stage: Stage, ghost cfg: Settings,
                          ghost before: Working)
      returns (offset: nat)
      requires Valid() && HostBuffers(io, sidechain)
      requires stage.Compress? ==> LengthPreserving(stage.dsp)
      requires cfg == CurrentSettings() && before == State(io)
      modifies processData`inputRingBuffers, processData`outputRingBuffers, processData`sidechainRingBuffers, io
      ensures offset == AlreadyProcessed(io.numSamples, before.streams.inputs[0].pos, cfg.hop)
      ensures WindowLoop(io, sidechain, before.streams,
                         SilentPrefix(io.numSamples, before.streams.inputs[0].pos, cfg.hop,
                                      processData.numWindowsProcessed, cfg.overlap),
                         before.streams.inputs[0].pos, cfg.hop, processData.numWindowsProcessed, 0, offset, [])
      ensures Snapshot(io)
        == PreChunk(cfg, before.streams, sidechain, io.numSamples, before.streams.inputs[0].pos,
                    processData.numWindowsProcessed)
    {
      ghost var s0 := Snapshot(io);
      var numSamples := io.numSamples;
      var hop := Hop();
      var pos := processData.inputRingBuffers[0].pos;
      var already := AlreadyProcessed(numSamples, pos, hop);
      ghost var silent := SilentPrefix(numSamples, pos, hop, processData.numWindowsProcessed, windowingOverlapTimes);
      StreamedStart(s0, sidechain, silent, sidechainActive, processData.fftWindowSize);
      SilentPrefixCoversPreChunk(numSamples, pos, hop, processData.numWindowsProcessed, windowingOverlapTimes);
      assert ChunkStart(numSamples, pos, hop, 0) == already;
      offset := 0;
      if already > 0 {
        offset := StreamChunk(io, sidechain, 0, already, s0, silent);
      }
    }

    /**
     * The window loop of `do_stft` (src/processor.cpp:664-697), entered with
     * the input cursor on a hop boundary or the block used up: one pass of
     * `StreamWindow` per window to process.
     */
    method StreamWindows(io: AudioBuffer, sidechain: seq<seq<real>>, stage: Stage, pos: nat, hop: nat,
                         ghost s0: Streams, ghost compressors0: seq<Compressor>, ghost silent: nat,
                         ghost windowsBefore: nat, offset: nat, ghost cfg: Settings)
      returns (ghost windowCursors: seq<nat>)
      requires WindowLoop(io, sidechain, s0, silent, pos, hop, windowsBefore, 0, offset, []) && hop == Hop()
      requires stage.Compress? ==> LengthPreserving(stage.dsp)
      requires cfg == CurrentSettings()
      requires s0.inputs[0].pos == pos && Fits(Working(s0, compressors0), cfg, stage)
      requires Feeds(s0, sidechain, io.numSamples)
      requires State(io) == Passes(stage, cfg, Working(s0, compressors0), sidechain, io.numSamples, windowsBefore, 0)
      modifies processData`inputRingBuffers, processData`outputRingBuffers, processData`sidechainRingBuffers
      modifies processData`numWindowsProcessed, processData`spectralCompressors, processData`sidechainThresholds, io
      ensures WindowLoop(io, sidechain, s0, silent, pos, hop, windowsBefore, WindowsToProcess(io.numSamples, pos, hop),
                         io.numSamples, windowCursors)
      ensures State(io)
        == Passes(stage, cfg, Working(s0, compressors0), sidechain, io.numSamples, windowsBefore,
                  WindowsToProcess(io.numSamples, pos, hop))
    {
      var windows := WindowsToProcess(io.numSamples, pos, hop);
      var sampleOffset := offset;
      windowCursors := [];
      var j := 0;
      while j < windows
        invariant j <= windows
        invariant WindowLoop(io, sidechain, s0, silent, pos, hop, windowsBefore, j, sampleOffset, windowCursors)
        invariant State(io) == Passes(stage, cfg, Working(s0, compressors0), sidechain, io.numSamples, windowsBefore, j)
      {
        sampleOffset, windowCursors :=
          StreamWindow(io, sidechain, stage, pos, hop, s0, silent, windowsBefore, j, sampleOffset, windowCursors,
                       cfg, State(io));
        j := j + 1;
      }
    }

    /**
     * The start of `processBlock` (src/processor.cpp:298-304): when the
     * settings-changed flag is set, clear it and reconfigure the compressors.
     */
    method ReconfigureIfChanged(log2: real -> real, log10: real -> real)
      requires Valid()
      modifies this`compressorSettingsChanged, this`makeupGain, processData`spectralCompressors
      ensures Valid() && !compressorSettingsChanged
      ensures makeupGain == if old(compressorSettingsChanged)
                            then MakeupGain(windowingOverlapTimes, autoMakeupGain, sidechainActive, compressorRatio, log10)
                            else old(makeupGain)
      ensures processData.spectralCompressors
        == if old(compressorSettingsChanged)
           then Reconfigured(old(processData.spectralCompressors), compressorRatio, compressorAttackMs,
                             compressorReleaseMs, sampleRate, processData.fftWindowSize, windowingOverlapTimes,
                             sidechainActive, log2)
           else old(processData.spectralCompressors)
    {
      if compressorSettingsChanged {
        compressorSettingsChanged := false;
        UpdateCompressors(log2, log10);
      }
    }

    /**
     * `processBlock` (src/processor.cpp:293-425): when the settings-changed
     * flag is set, clear it and reconfigure the compressors; then run the
     * driver with the spectral window step.
     */
    method ProcessBlock(io: AudioBuffer, sidechain: seq<seq<real>>, dsp: Dsp,
                        log2: real -> real, log10: real -> real) returns (ghost windowCursors: seq<nat>)
      requires Valid() && HostBuffers(io, sidechain) && LengthPreserving(dsp)
      modifies this`compressorSettingsChanged, this`makeupGain
      modifies processData`inputRingBuffers, processData`outputRingBuffers, processData`sidechainRingBuffers
      modifies processData`numWindowsProcessed, processData`spectralCompressors, processData`sidechainThresholds, io
      ensures Valid() && HostBuffers(io, sidechain) && !compressorSettingsChanged
      ensures makeupGain == if old(compressorSettingsChanged)
                            then MakeupGain(windowingOverlapTimes, autoMakeupGain, sidechainActive, compressorRatio, log10)
                            else old(makeupGain)
      ensures BlockStreamed(Snapshot(io), old(Snapshot(io)), sidechain, io.numSamples, Hop(),
                            old(processData.numWindowsProcessed), processData.numWindowsProcessed,
                            windowingOverlapTimes, sidechainActive, processData.fftWindowSize)
      ensures State(io)
        == BlockEffect(Compress(dsp), CurrentSettings(),
                       Working(old(Snapshot(io)),
                               if old(compressorSettingsChanged)
                               then Reconfigured(old(processData.spectralCompressors), compressorRatio,
                                                 compressorAttackMs, compressorReleaseMs, sampleRate,
                                                 processData.fftWindowSize, windowingOverlapTimes, sidechainActive, log2)
                               else old(processData.spectralCompressors)),
                       sidechain, io.numSamples, old(processData.numWindowsProcessed))
    {
      ReconfigureIfChanged(log2, log10);
      ghost var cfg, before := CurrentSettings(), State(io);
      assert before
        == Working(old(Snapshot(io)),
                   if old(compressorSettingsChanged)
                   then Reconfigured(old(processData.spectralCompressors), compressorRatio, compressorAttackMs,
                                     compressorReleaseMs, sampleRate, processData.fftWindowSize, windowingOverlapTimes,
                                     sidechainActive, log2)
                   else old(processData.spectralCompressors));
      windowCursors := DoStft(io, sidechain, Compress(dsp), cfg, before);
    }

    /**
     * `processBlockBypassed` (src/processor.cpp:265-291): run the driver with
     * the bypass window step, which is meant to keep the latency of the
     * processed signal (see `WindowSteps.BypassRunsAheadOfSpectral` for why
     * it does not); the settings-changed flag is left alone.
     */
    method ProcessBlockBypassed(io: AudioBuffer, sidechain: seq<seq<real>>) returns (ghost windowCursors: seq<nat>)
      requires Valid() && HostBuffers(io, sidechain)
      modifies processData`inputRingBuffers, processData`outputRingBuffers, processData`sidechainRingBuffers
      modifies processData`numWindowsProcessed, processData`spectralCompressors, processData`sidechainThresholds, io
      ensures Valid() && HostBuffers(io, sidechain)
      ensures processData.spectralCompressors == old(processData.spectralCompressors)
      ensures BlockStreamed(Snapshot(io), old(Snapshot(io)), sidechain, io.numSamples, Hop(),
                            old(processData.numWindowsProcessed), processData.numWindowsProcessed,
                            windowingOverlapTimes, sidechainActive, processData.fftWindowSize)
      ensures State(io)
        == BlockEffect(Bypass, CurrentSettings(), old(State(io)), sidechain, io.numSamples,
                       old(processData.numWindowsProcessed))
    {
      windowCursors := DoStft(io, sidechain, Bypass, CurrentSettings(), State(io));
    }
  }
}
