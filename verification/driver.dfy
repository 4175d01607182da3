/**
 * What `do_stft` computes, on values: the working state a block starts
 * from, the window step of either stage, the chunk transfers between window
 * steps, and the state the whole block leaves behind.
 */
module Driver {

  import opened Ring
  import opened Alignment
  import opened Spectral
  import opened Transfer
  import opened Stft
  import opened WindowSteps

  /** The window step `do_stft` runs once per hop. */
  datatype Stage = Compress(dsp: Dsp) | Bypass

  /**
   * What the driver reads but never changes: the hop, the window table (its
   * length is the window size), the makeup gain, the overlap factor that
   * gates the output, and whether sidechaining is active.
   */
  datatype Settings = Settings(hop: nat, table: seq<real>, gain: real, overlap: nat, sidechainActive: bool)

  /** What the driver changes: the rings and the main bus, and the compressors. */
  datatype Working = Working(streams: Streams, compressors: seq<Compressor>)

  /**
   * A working state the driver can run on: a positive hop of at most a
   * window, one ring of each kind per input channel and at least one input
   * channel, fewer compressors than window samples, and transforms that keep
   * the length of what they are given.
   */
  ghost predicate Fits(w: Working, cfg: Settings, stage: Stage)
  {
    && 0 < cfg.hop <= |cfg.table|
    && w.streams.Shaped(|cfg.table|) && 0 < |w.streams.inputs|
    && |w.compressors| < |cfg.table|
    && (stage.Compress? ==> LengthPreserving(stage.dsp))
  }

  /** One sidechain row per input channel, and every bus and sidechain row a block of `numSamples` long. */
  ghost predicate Feeds(s: Streams, sides: seq<seq<real>>, numSamples: nat)
  {
    && |sides| == |s.inputs|
    && (forall d :: 0 <= d < |s.io| ==> |s.io[d]| == numSamples)
    && (forall d :: 0 <= d < |sides| ==> |sides[d]| == numSamples)
  }

  /**
   * The window step of `stage` (src/processor.cpp:276-290 and 309-424).
   * The bypass step overwrites the hop at each output cursor with the newest
   * hop of input. The spectral step first, when sidechaining is active, sets
   * every compressor's threshold from the newest sidechain windows, then
   * overlap-adds the compressed newest input window into every output ring.
   * Only the output rings and the compressors change.
   */
  function WindowEffect(stage: Stage, cfg: Settings, w: Working): (r: Working)
    requires Fits(w, cfg, stage)
    ensures Fits(r, cfg, stage)
    ensures r.streams == w.streams.(outputs := r.streams.outputs)
    ensures SamePlaces(w.streams.outputs, r.streams.outputs)
    ensures stage.Bypass? ==> r.compressors == w.compressors
    ensures |r.compressors| == |w.compressors|
  {
    var s, capacity := w.streams, |cfg.table|;
    match stage
    case Bypass =>
      w.(streams := s.(outputs := BypassOutputs(s.inputs, s.outputs, cfg.hop, |s.inputs|, capacity)))
    case Compress(dsp) =>
      var compressors :=
        if cfg.sidechainActive
        then WithSidechainThresholds(w.compressors, SidechainMagnitudes(dsp, s.sidechains, capacity), |w.compressors|)
        else w.compressors;
      Working(s.(outputs := CompressedOutputs(dsp, cfg.table, compressors, cfg.gain, s.inputs, s.outputs, |s.inputs|)),
              compressors)
  }

  /**
   * The chunk transfer of `len` samples at `offset` with the gate as given
   * (src/processor.cpp:641-657, 676-693), every input channel in turn.
   */
  function Transferred(cfg: Settings, s: Streams, sides: seq<seq<real>>, numSamples: nat, offset: nat, len: nat,
                       gateOpen: bool): (t: Streams)
    requires s.Shaped(|cfg.table|) && Feeds(s, sides, numSamples)
    requires offset + len <= numSamples && len <= |cfg.table|
    ensures t.Shaped(|cfg.table|) && Feeds(t, sides, numSamples) && |t.inputs| == |s.inputs|
    ensures forall c :: 0 <= c < |s.inputs| ==> t.io[c][offset..offset + len] == Played(s.outputs[c], len, gateOpen)
  {
    var chunks := Chunks(sides, |s.inputs|, offset, len);
    TransferredFeeds(cfg, s, sides, numSamples, offset, len, gateOpen);
    ChunkTransfer(s, chunks, |s.inputs|, offset, len, gateOpen, cfg.sidechainActive, |cfg.table|)
  }

  /** A chunk transfer keeps every row a block long and plays each input channel's chunk. */
  lemma TransferredFeeds(cfg: Settings, s: Streams, sides: seq<seq<real>>, numSamples: nat, offset: nat, len: nat,
                         gateOpen: bool)
    requires s.Shaped(|cfg.table|) && Feeds(s, sides, numSamples)
    requires offset + len <= numSamples && len <= |cfg.table|
    ensures var chunks := Chunks(sides, |s.inputs|, offset, len);
      && SidesFit(s, chunks, len) && s.Holds(offset, len)
      && var t := ChunkTransfer(s, chunks, |s.inputs|, offset, len, gateOpen, cfg.sidechainActive, |cfg.table|);
      && Feeds(t, sides, numSamples)
      && forall c :: 0 <= c < |s.inputs| ==> t.io[c][offset..offset + len] == Played(s.outputs[c], len, gateOpen)
  {
    var chunks := Chunks(sides, |s.inputs|, offset, len);
    var t := ChunkTransfer(s, chunks, |s.inputs|, offset, len, gateOpen, cfg.sidechainActive, |cfg.table|);
    forall c | 0 <= c < |s.inputs|
      ensures t.io[c][offset..offset + len] == Played(s.outputs[c], len, gateOpen)
    {
      ChunkTransferChannel(s, chunks, |s.inputs|, offset, len, gateOpen, cfg.sidechainActive, |cfg.table|, c);
    }
  }

  /**
   * The samples before the first window step of a block
   * (src/processor.cpp:619-662): up to the next hop boundary of the input
   * cursor `pos`, or the whole block if it ends first, with the gate as the
   * `windowsBefore` windows processed so far set it. Nothing moves when the
   * cursor is on a boundary.
   */
  function PreChunk(cfg: Settings, s: Streams, sides: seq<seq<real>>, numSamples: nat, pos: nat,
                    windowsBefore: nat): (t: Streams)
    requires 0 < cfg.hop <= |cfg.table| && s.Shaped(|cfg.table|) && Feeds(s, sides, numSamples)
    ensures t.Shaped(|cfg.table|) && Feeds(t, sides, numSamples) && |t.inputs| == |s.inputs|
    ensures AlreadyProcessed(numSamples, pos, cfg.hop) == 0 ==> t == s
  {
    var already := AlreadyProcessed(numSamples, pos, cfg.hop);
    if already > 0 then Transferred(cfg, s, sides, numSamples, 0, already, windowsBefore >= cfg.overlap) else s
  }

  /**
   * Pass `j` of the driver loop (src/processor.cpp:664-697): the window
   * step, then loop chunk `j`, with the gate as the `windowsBefore + j + 1`
   * windows now processed set it.
   */
  function Pass(stage: Stage, cfg: Settings, w: Working, sides: seq<seq<real>>, numSamples: nat, pos: nat,
                windowsBefore: nat, j: nat): (r: Working)
    requires Fits(w, cfg, stage) && Feeds(w.streams, sides, numSamples)
    requires j < WindowsToProcess(numSamples, pos, cfg.hop)
    ensures Fits(r, cfg, stage) && Feeds(r.streams, sides, numSamples)
    ensures |r.compressors| == |w.compressors|
    ensures stage.Bypass? ==> r.compressors == w.compressors
  {
    var stepped := WindowEffect(stage, cfg, w);
    var offset, len := ChunkStart(numSamples, pos, cfg.hop, j), ChunkLength(numSamples, pos, cfg.hop, j);
    var gateOpen := windowsBefore + j + 1 >= cfg.overlap;
    stepped.(streams := Transferred(cfg, stepped.streams, sides, numSamples, offset, len, gateOpen))
  }

  /**
   * A pass is the window step followed by the transfer of loop chunk `j`,
   * at its offset and length and with the gate the new window count sets.
   */
  lemma PassTransfersChunk(stage: Stage, cfg: Settings, w: Working, stepped: Working,
                           sides: seq<seq<real>>, numSamples: nat, pos: nat, windowsBefore: nat, j: nat,
                           offset: nat, len: nat, gateOpen: bool)
    requires Fits(w, cfg, stage) && Feeds(w.streams, sides, numSamples)
    requires j < WindowsToProcess(numSamples, pos, cfg.hop)
    requires stepped == WindowEffect(stage, cfg, w)
    requires offset == ChunkStart(numSamples, pos, cfg.hop, j) && len == ChunkLength(numSamples, pos, cfg.hop, j)
    requires gateOpen == (windowsBefore + j + 1 >= cfg.overlap)
    ensures stepped.streams.Holds(offset, len) && SidesFit(stepped.streams, Chunks(sides, |w.streams.inputs|, offset, len), len)
    ensures Pass(stage, cfg, w, sides, numSamples, pos, windowsBefore, j)
      == stepped.(streams := ChunkTransfer(stepped.streams, Chunks(sides, |w.streams.inputs|, offset, len),
                                           |w.streams.inputs|, offset, len, gateOpen, cfg.sidechainActive, |cfg.table|))
  {
  }

  /**
   * The working state after the pre-chunk and the first `j` passes of a
   * block that started as `w0`, with the input cursor of channel 0 at the
   * start of the block.
   */
  function Passes(stage: Stage, cfg: Settings, w0: Working, sides: seq<seq<real>>, numSamples: nat,
                  windowsBefore: nat, j: nat): (r: Working)
    requires Fits(w0, cfg, stage) && Feeds(w0.streams, sides, numSamples)
    requires j <= WindowsToProcess(numSamples, w0.streams.inputs[0].pos, cfg.hop)
    ensures Fits(r, cfg, stage) && Feeds(r.streams, sides, numSamples)
    ensures |r.compressors| == |w0.compressors|
    ensures stage.Bypass? ==> r.compressors == w0.compressors
    decreases j
  {
    var pos := w0.streams.inputs[0].pos;
    if j == 0 then w0.(streams := PreChunk(cfg, w0.streams, sides, numSamples, pos, windowsBefore))
    else Pass(stage, cfg, Passes(stage, cfg, w0, sides, numSamples, windowsBefore, j - 1), sides, numSamples, pos,
              windowsBefore, j - 1)
  }

  /**
   * `do_stft` on a block of `numSamples` samples (src/processor.cpp:591-699):
   * the bus channels past the input channels silenced, then the pre-chunk
   * and one pass per window to process.
   */
  function BlockEffect(stage: Stage, cfg: Settings, w: Working, sides: seq<seq<real>>, numSamples: nat,
                       windowsBefore: nat): (r: Working)
    requires Fits(w, cfg, stage) && Feeds(w.streams, sides, numSamples)
    ensures Fits(r, cfg, stage) && Feeds(r.streams, sides, numSamples)
    ensures |r.compressors| == |w.compressors|
    ensures stage.Bypass? ==> r.compressors == w.compressors
  {
    var s := w.streams;
    var w0 := w.(streams := s.(io := SilenceFrom(s.io, |s.inputs|)));
    Passes(stage, cfg, w0, sides, numSamples, windowsBefore, WindowsToProcess(numSamples, s.inputs[0].pos, cfg.hop))
  }
}
