# Spectral compressor: the STFT driver and its window steps

This project models the audio-thread core of a spectral compressor plugin. Each
host block passes through `do_stft`, a short-time Fourier transform driver.

- **Streaming the block.** Each input channel's samples are fed into a ring
  buffer one window long. The sidechain, when active, gets a ring of its own.
  The block's main bus is filled from an output ring, except while too few
  windows have been processed for the output to be valid; then it is silenced.
- **The window step.** Whenever the input cursor crosses a hop boundary (the
  window size divided by the overlap factor), a window step runs.
  - In `processBlock` it is the spectral step. When sidechaining is active, it
    first sets each bin's compressor threshold to the mean over channels of
    that bin's sidechain magnitude. It then windows the newest window of each
    input, transforms it, scales every bin by its compressor's gain and
    transforms back. The result, times the makeup gain, is overlap-added into
    the output ring.
  - In `processBlockBypassed` it is the bypass step. The newest hop of input
    is copied into the output ring at its cursor. This is meant to keep the
    latency of the processed signal, but the copied hop plays one hop after
    it arrived, while a spectral frame plays one window after (see
    "Findings").
- **Rebuilding and reconfiguring.** `update_and_swap_process_data` rebuilds
  the working set for a new window size. `update_compressors` derives every
  compressor's ratio, attack, release, per-hop sample rate and pink-noise
  threshold, and the makeup gain.

The ring buffers are values: a backing store plus a cursor, seen through
`View`, their contents oldest first. The processor and its working set are
classes whose fields the methods update in place. The `Driver` module states
on values what `do_stft` computes: the window step of either stage
(`WindowEffect`), the chunk transfers, each pass of the loop (`Pass`,
`Passes`) and the whole block (`BlockEffect`). Each driver method states its
new state as an equality between the part of the heap it changes, read as one
value (`Snapshot` for the rings and the main bus, `State` for these and the
compressors), and one of these functions of that value before the call.
Beside it, `Stft.Streamed` states what the block has streamed so far: the
input rings fed, the output cursors moved, and the silent prefix.

Modules:

- `ModArith`: modular-arithmetic helpers.
- `Ring`: the ring buffer.
- `Alignment`: the hop and window arithmetic of `do_stft`.
- `Transfer`: one chunk moved between the bus and the rings.
- `Stft`: what streaming part of a block does to the rings and the bus.
- `Spectral`: the per-bin arithmetic.
- `WindowSteps`: the window steps and compressor settings, on values.
- `Driver`: what `do_stft` does to the rings, the bus and the compressors, on values.
- `Processor`: the classes and the driver.

## Model

| member | source | states |
|---|---|---|
| Ring.Create | src/processor.cpp:496-500 | a resized ring holds one window of silence and its cursor is at slot 0 |
| Ring.ReadNFromInPlace | src/processor.cpp:287-288 | `read_n_from_in_place` keeps the cursor and the capacity |
| Ring.AddNFromInPlace | src/processor.cpp:420-422 | `add_n_from_in_place` keeps the cursor and the capacity |
| Ring.ReadNFromAppends | src/processor.cpp:643-644 | `read_n_from` appends `n` samples to the ring's oldest-first contents and drops the `n` oldest |
| Ring.ReadNFrom | src/processor.cpp:677-679 | `read_n_from` moves the cursor by `n` slots, modulo the capacity, and keeps the capacity |
| Ring.ReadNFromInPlaceOverwrites | src/processor.cpp:287-288 | `read_n_from_in_place` replaces the `n` samples at the cursor and leaves the rest and the cursor unchanged |
| Ring.AddNFromInPlaceView | src/processor.cpp:420-422 | `add_n_from_in_place` adds `gain` times each source sample to the sample at the same distance from the cursor; the cursor does not move |
| Ring.CopyLastNTo | src/processor.cpp:285-286 | `copy_last_n_to` yields the `n` newest samples, oldest first |
| Ring.CopyNTo | src/processor.cpp:646-648 | `copy_n_to` yields the `n` oldest samples and moves the cursor by `n` |
| Ring.CopyNToRotates | src/processor.cpp:681-683 | after `copy_n_to`, the samples it yielded are at the newest end, zeroed when asked to clear |
| Ring.AdvanceView | src/processor.cpp:681-683 | moving the cursor by `n` rotates the oldest-first contents left by `n` |
| Ring.OverlayView | src/processor.cpp:643-644 | writing values at the cursor replaces the oldest samples by those values |
| Ring.FeedFeed | src/processor.cpp:641-696 | feeding a ring two chunks one after the other is feeding it their concatenation, so chunking does not change what the ring holds |
| Ring.Feed | src/processor.cpp:677-679 | the sliding window over a stream keeps exactly the newest capacity-many samples |
| Alignment.ToNextBoundary | src/processor.cpp:625-627 | the distance to the next hop boundary is below the hop, zero exactly at a boundary, and lands on the first boundary after the cursor |
| Alignment.AlreadyProcessed | src/processor.cpp:623-627 | the pre-chunk is below one hop and at most the block; it is empty exactly when the block is empty or the cursor is on a boundary; and it ends on the first boundary or at the end of the block |
| Alignment.CeilDiv | src/processor.cpp:630-631 | integer ceiling: the smallest `q` with `q * b >= a` |
| Alignment.WindowsToProcess | src/processor.cpp:628-631 | the windows of the block cover the rest of the block, the last one is needed, and there are none exactly when the pre-chunk used up the block |
| Alignment.ChunkLength | src/processor.cpp:674-675 | each loop chunk is between 1 and one hop long and stays within the block |
| Alignment.ChunkStartInBlock | src/processor.cpp:664-675 | every window of the loop starts inside the block |
| Alignment.LoopChunksSumTo | src/processor.cpp:659-695 | after `k` passes of the loop the offset is the pre-chunk plus the first `k` chunk lengths |
| Alignment.ChunksPartitionBlock | src/processor.cpp:628-698 | the pre-chunk and the loop chunks cover the block exactly, so the final offset equals the block length |
| Alignment.WindowStepAtBoundary | src/processor.cpp:662-666 | when the hop divides the window size, every window step runs with the ring cursor on a hop boundary |
| Alignment.WindowSlots | src/processor.cpp:662-666 | the ring cursor at window step `k` is the starting cursor plus the start of chunk `k`, modulo the capacity |
| Alignment.WindowSlotsOnBoundaries | src/processor.cpp:662-666 | when the hop divides the window size, every recorded window cursor of a block is on a hop boundary |
| Alignment.WindowStartsAreMultiples | src/processor.cpp:623-666 | when the hop divides the window size, every window of a block starts at a multiple of the hop in the whole stream |
| Alignment.NoMultipleBeforeAlignment | src/processor.cpp:623-660 | no multiple of the hop in the stream falls inside the pre-chunk |
| Alignment.AlignedAfterPreChunk | src/processor.cpp:641-664 | after a non-exhausting pre-chunk the stream position is a multiple of the hop |
| Alignment.MultiplesAreWindowStarts | src/processor.cpp:664-696 | every multiple of the hop inside the block is the start of one of its windows |
| Alignment.WindowCadence | src/processor.cpp:102-108 | when the hop divides the window size, a stream position in a block is a window start exactly when it is a multiple of the hop |
| Alignment.WindowAtAlignedBlockStart | src/processor.cpp:662-666 | a non-empty block that starts with the cursor on a boundary has a window at its first sample |
| Alignment.NonDividingHopBreaksCadence | src/processor.cpp:102-108 | with a 512-sample window and overlap 3 (hop 170), windows start at stream samples 510 and 512 |
| Alignment.SilentPrefix | src/processor.cpp:645-651 | the silent prefix of a block never exceeds the block |
| Alignment.SilentPrefixCoversPreChunk | src/processor.cpp:645-651 | while the gate is closed the pre-chunk lies inside the silent prefix; once it is open there is no silent prefix |
| Alignment.SilentPrefixIsGatedChunks | src/processor.cpp:680-687 | a loop chunk handled while fewer than `overlap` windows have been processed lies inside the silent prefix, and one handled with the gate open lies after it |
| Alignment.LoopChunkGated | src/processor.cpp:674-687 | a loop chunk starts at its offset, has length `min(hop, rest)`, ends where the next one starts, and is inside the silent prefix when the gate is closed and after it when it is open |
| Transfer.Splice | src/processor.cpp:646-650 | writing a chunk into a bus channel changes only that slice |
| Transfer.Played | src/processor.cpp:645-651 | the chunk written to the bus is the oldest output-ring samples when the gate is open and silence otherwise |
| Transfer.ChannelTransfer | src/processor.cpp:642-656 | one channel's transfer keeps every ring's capacity and every bus channel's length |
| Transfer.ChunkTransfer | src/processor.cpp:641-657 | the chunk transfer keeps every ring's capacity and every bus channel's length |
| Transfer.ChunkTransferChannel | src/processor.cpp:641-693 | a transferred channel has its input chunk appended to its input ring, its bus slice set to what the output ring plays (gate open, the ring then cleared behind its cursor) or to silence (gate closed), the rest of its bus row kept, and its sidechain chunk appended when sidechaining is active; every other channel is untouched |
| Transfer.ChunkTransferStep | src/processor.cpp:642-657 | transferring one more channel is one channel transfer after the previous channels |
| Stft.FeedChunk | src/processor.cpp:677-679 | feeding the next chunk of a channel keeps the ring equal to the sliding window over the channel's samples so far, with the cursor moved by as many samples |
| Stft.RingsFedStep | src/processor.cpp:676-679 | one chunk keeps every input ring the sliding window over its channel so far |
| Stft.AdvancedStep | src/processor.cpp:680-684 | playing a chunk moves every output cursor by the chunk length |
| Stft.BusStep | src/processor.cpp:680-687 | after a chunk, the bus holds silence over the silent prefix seen so far and the untouched input after the chunk |
| Stft.StreamedStart | src/processor.cpp:636 | before any chunk the stream relation holds with offset zero |
| Stft.ChunkReadsInput | src/processor.cpp:676-679 | the bus slice about to be fed to the input rings still holds the block's own input, not output written earlier in the block |
| Stft.StreamedStep | src/processor.cpp:674-695 | an allowed chunk continues the stream: the rings are fed, the output cursors advance by what was played, and each input channel's bus chunk is the oldest output-ring samples when the gate is open and silence when it is closed |
| Stft.ChunkKeepsStream | src/processor.cpp:676-693 | a chunk continues the stream, keeps every ring sized, and keeps every bus channel at its length |
| Stft.SilenceFrom | src/processor.cpp:606-609 | the channels from `from` on become silence of the same length, and the others are unchanged |
| Stft.BlockStreamedSilences | src/processor.cpp:606-698 | after a block: the unused channels are silent; each input channel is silent over the silent prefix; each input ring is the sliding window fed the whole block; and each output cursor moved by the samples played |
| Spectral.Multiplier | src/processor.cpp:399-401 | for a non-zero magnitude the multiplier times the magnitude is the compressed magnitude; for a zero magnitude it is 1 |
| Spectral.BinGain | src/processor.cpp:394-401 | a bin of non-zero magnitude gets the gain that turns its magnitude into the compressor's output for it; a bin of zero magnitude gets gain 1 |
| Spectral.GainYieldsCompressedMagnitude | src/processor.cpp:394-405 | given a homogeneous, non-negative magnitude and a non-negative compressor output, a scaled bin has exactly the magnitude the compressor returned, and a bin of zero magnitude is left unchanged |
| Spectral.CompressedSpectrum | src/processor.cpp:382-406 | the compressed spectrum has the length of the transform, and its DC bin and every bin past the last compressor are those of the transform |
| Spectral.ApplyBinGains | src/processor.cpp:382-406 | bin `i + 1` is scaled by compressor `i`'s gain; the DC bin and the bins past the last compressor are untouched |
| Spectral.Windowed | src/processor.cpp:362-364 | every sample is multiplied by the window-table entry at its index |
| Spectral.SynthesisFrame | src/processor.cpp:359-418 | the frame added to the output has one sample per window-table entry |
| Spectral.BinMagnitudes | src/processor.cpp:318-332 | entry `b` is the magnitude of bin `b` of the transform |
| Spectral.ChannelMean | src/processor.cpp:344-352 | the threshold times the channel count is the bin's magnitude summed over the channels |
| Spectral.MeanOfEqualChannels | src/processor.cpp:344-351 | when every channel shows a bin at the same magnitude, the sidechain threshold is that magnitude, whatever the channel count |
| Spectral.MeanWithinChannelRange | src/processor.cpp:344-351 | the sidechain threshold lies between the smallest and the largest channel magnitude |
| Spectral.ColumnSumBounds | src/processor.cpp:314-342 | the accumulated sum over `k` channels lies between `k` times the lower and `k` times the upper bound |
| WindowSteps.BypassOutputs | src/processor.cpp:279-289 | the bypass step keeps every output cursor and capacity |
| WindowSteps.BypassPlaysNewestHop | src/processor.cpp:279-289 | after the bypass step, the next hop an output plays is the newest hop of its input; the rest is unchanged |
| WindowSteps.AlignedBypassOutputs | src/processor.cpp:270-289 | the bypass step as the latency comment intends it keeps every output cursor and capacity |
| WindowSteps.AlignedBypassPlaysOldestHop | src/processor.cpp:270-289 | after it, the next hop an output plays is the oldest hop of its input window, the hop the spectral frame starts with; the rest is unchanged |
| WindowSteps.BypassRunsAheadOfSpectral | src/processor.cpp:270-289 | on a 512-sample ramp window with a hop of 128, the bypass step plays sample 384 next while the aligned step plays sample 0 |
| WindowSteps.CompressedOutputs | src/processor.cpp:358-423 | the spectral step keeps every output cursor and capacity |
| WindowSteps.CompressedOutputsOverlapAdd | src/processor.cpp:358-423 | after the spectral step, each output, seen from its cursor, is what it held plus the makeup gain times the synthesis frame of its newest input window |
| WindowSteps.SidechainMagnitudes | src/processor.cpp:314-342 | row `c` holds the bin magnitudes of the newest window of sidechain ring `c` |
| WindowSteps.AddBinsAccumulates | src/processor.cpp:327-342 | adding channel `c`'s magnitudes to the sums over the channels below `c` gives the sums over the channels up to `c` |
| WindowSteps.ClearedBelow | src/processor.cpp:353-354 | the accumulators below `upto` are zero again and the rest are unchanged |
| WindowSteps.EffectiveSampleRate | src/processor.cpp:517-519 | the compressors' rate times the hop length is the host rate |
| WindowSteps.PinkThresholdFalls | src/processor.cpp:551-567 | the pink-noise thresholds never rise from a lower bin to a higher one |
| WindowSteps.PinkThresholdPerOctave | src/processor.cpp:551-567 | with a base-2 logarithm, a bin whose frequency plus 2 Hz is twice another's gets a threshold 3 dB lower, the slope of pink noise |
| WindowSteps.Reconfigured | src/processor.cpp:509-571 | every compressor gets the ratio, attack, release and per-hop rate; without a sidechain it gets its bin's pink-noise threshold, with one it keeps its threshold |
| WindowSteps.MakeupGain | src/processor.cpp:573-588 | the gain times the overlap is 1 without automatic makeup gain, and otherwise the sidechain or ratio factor |
| Driver.WindowEffect | src/processor.cpp:276-424 | a window step changes only the output rings, keeping their cursors and capacities, and the compressors, which the bypass step keeps |
| Driver.Transferred | src/processor.cpp:641-693 | after a chunk transfer each input channel's bus chunk is what its output ring plays when the gate is open and silence when it is closed |
| Driver.PreChunk | src/processor.cpp:619-662 | nothing moves when the input cursor is on a hop boundary |
| Driver.PassTransfersChunk | src/processor.cpp:664-697 | a pass of the loop is the window step followed by the chunk transfer of loop chunk `j`, at its offset and length and with the gate the new window count sets |
| Driver.Pass | src/processor.cpp:664-697 | a pass keeps the shapes of the rings and the bus and the compressor count, and the bypass stage keeps the compressors |
| Driver.Passes | src/processor.cpp:619-697 | the pre-chunk and the passes keep the shapes of the rings and the bus and the compressor count, and the bypass stage keeps the compressors |
| Driver.BlockEffect | src/processor.cpp:591-699 | a block keeps the shapes of the rings and the bus and the compressor count, and the bypass stage keeps the compressors |
| WindowSteps.Resize | src/processor.cpp:476-489 | `resize(n)` keeps the first `n` elements and pads with the default value |
| Processor.Pow2 | src/processor.cpp:465 | `1 << order` is at least 1 |
| Processor.WindowSizeRange | src/processor.cpp:88-97 | every selectable frequency resolution gives a window of at least 512 samples |
| Processor.HopRange | src/processor.cpp:88-108 | with a window of at least 512 samples and an overlap of 2 to 64, the hop is between 8 samples and half the window |
| Processor.SpectralCompressorProcessor.Hop | src/processor.cpp:615-617 | the hop never exceeds the window, and it is at least 8 and at most half the window for the declared parameter ranges |
| Processor.SpectralCompressorProcessor.UpdateAndSwapProcessData | src/processor.cpp:463-507 | the window is `1 << order`, the window count is reset, the buffers are resized, every ring is one window of silence at slot 0, and the settings-changed flag is raised |
| Processor.SpectralCompressorProcessor.UpdateCompressors | src/processor.cpp:509-589 | every compressor gets the ratio, attack, release and per-hop rate; without a sidechain it also gets its bin's pink-noise threshold, and with one its threshold is kept; the makeup gain is recomputed |
| Processor.SpectralCompressorProcessor.BypassWindowStep | src/processor.cpp:276-290 | every input channel's output ring gets the newest hop of its input at its cursor |
| Processor.SpectralCompressorProcessor.AddMagnitudes | src/processor.cpp:327-342 | accumulator `k` grows by the magnitude of bin `k + 1` |
| Processor.SpectralCompressorProcessor.AccumulateSidechain | src/processor.cpp:314-343 | accumulator `k` holds bin `k + 1`'s magnitude summed over all sidechain channels |
| Processor.SpectralCompressorProcessor.ApplySidechainThresholds | src/processor.cpp:344-356 | compressor `i`'s threshold becomes the channel mean of bin `i + 1`, and its other settings are kept |
| Processor.SpectralCompressorProcessor.SetSidechainThresholds | src/processor.cpp:313-356 | the compressors take the sidechain thresholds of the newest sidechain windows |
| Processor.SpectralCompressorProcessor.CompressChannels | src/processor.cpp:358-423 | every input channel's output ring gets the overlap-add of its compressed synthesis frame |
| Processor.SpectralCompressorProcessor.SpectralWindowStep | src/processor.cpp:309-424 | the thresholds are set from the sidechain only when sidechaining is active, and the outputs are compressed with the compressors as they now are |
| Processor.SpectralCompressorProcessor.WindowStep | src/processor.cpp:666-670 | `process_fn`: with the bypass stage the outputs become the bypass outputs and the compressors are kept; with the spectral stage the compressors take the sidechain thresholds when sidechaining is active, and the outputs become the compressed outputs with the compressors as they then are |
| Processor.SpectralCompressorProcessor.AccumulateSidechainChannel | src/processor.cpp:314-343 | adding channel `c`'s bin magnitudes turns the sums over the channels below `c` into the sums over the channels up to `c` |
| Processor.SpectralCompressorProcessor.TransferChannel | src/processor.cpp:676-692 | one channel's input ring, output ring, bus slice and sidechain ring change as one channel transfer |
| Processor.SpectralCompressorProcessor.TransferNextChannel | src/processor.cpp:676-692 | after the channels below `c` have done their chunk transfer, transferring channel `c` gives the transfer of the channels up to `c` |
| Processor.SpectralCompressorProcessor.TransferChunk | src/processor.cpp:641-657 | every input channel does its chunk transfer |
| Processor.SpectralCompressorProcessor.StreamChunk | src/processor.cpp:674-695 | one chunk continues the block's stream up to `offset + len`, and the new snapshot is the chunk transfer of the old one |
| Processor.SpectralCompressorProcessor.SilenceUnusedChannels | src/processor.cpp:606-609 | the output channels past the input channels are silenced for the whole block |
| Processor.SpectralCompressorProcessor.ProcessWindow | src/processor.cpp:666-670 | the window step does not disturb the stream so far, the window count grows by one, and the new state is `Driver.WindowEffect` of the old |
| Processor.SpectralCompressorProcessor.StreamPreChunk | src/processor.cpp:619-662 | the pre-chunk is streamed, the loop then starts at its end with the window count unchanged, and the new snapshot is `Driver.PreChunk` of the old |
| Processor.SpectralCompressorProcessor.RunPass | src/processor.cpp:664-697 | one loop pass: the window count grows by one, the stream continues to the end of chunk `j`, and the new state is `Driver.Pass` of the state before |
| Processor.SpectralCompressorProcessor.StreamWindow | src/processor.cpp:664-697 | one loop pass runs a window step with the cursor recorded and streams the next chunk, and the new state is `Driver.Pass` of the old |
| Processor.SpectralCompressorProcessor.StreamWindows | src/processor.cpp:664-697 | the loop processes every window of the block and streams the block to its end, and the new state is `Driver.Passes` over all the windows of the block |
| Processor.SpectralCompressorProcessor.StreamBlock | src/processor.cpp:611-697 | the block is streamed to its end with its silent prefix, the window count grows by the number of windows to process, and the new state is `Driver.Passes` over all of them |
| Processor.SpectralCompressorProcessor.DoStft | src/processor.cpp:591-699 | `do_stft` streams the whole block as stated by `BlockStreamed`, and the new state is `Driver.BlockEffect` of the old; when the hop divides the window, every window step happens with the cursor on a hop boundary |
| Processor.SpectralCompressorProcessor.ReconfigureIfChanged | src/processor.cpp:298-304 | the settings-changed flag is consumed; when it was set the compressors are reconfigured and the makeup gain is recomputed, otherwise both are kept |
| Processor.SpectralCompressorProcessor.ProcessBlock | src/processor.cpp:293-425 | the settings-changed flag is consumed; the new state is `Driver.BlockEffect` with the spectral step, run on the compressors as `WindowSteps.Reconfigured` leaves them when the flag was set and as they were otherwise; the makeup gain is recomputed only if the flag was set |
| Processor.SpectralCompressorProcessor.ProcessBlockBypassed | src/processor.cpp:265-291 | the new state is `Driver.BlockEffect` with the bypass step, and the compressors are left unchanged |

## Left out

- The plugin shell is not modelled, because it is host plumbing outside the audio path: the parameter tree, the editor, program handling, `prepareToPlay`, `releaseResources`, `getStateInformation`/`setStateInformation`, and latency reporting to the host.
- The double-buffered working set (`modify_and_swap`) and the atomic compare-and-swap on the settings-changed flag are not modelled, because the model has a single thread. The flag is an ordinary field, and the rebuild updates the working set directly.
- The ring buffer's own implementation (`ring.h`) is not part of this model. Its operations are modelled on values from their uses in src/processor.cpp: `read_n_from` writes at the cursor and advances, the `*_in_place` operations leave the cursor where it is, `copy_n_to` reads and optionally clears at the cursor and advances, `copy_last_n_to` yields the newest samples, and `resize(n)` leaves `n` samples of silence with the cursor at slot 0 (`Ring.Create`). The window cadence results (`Alignment.WindowCadence`, `Alignment.NonDividingHopBreaksCadence`) and the bypass finding rest on these semantics.
- The FFT, the Hann window table, `std::abs` of a bin and the compressor's `processSample` (with its envelope follower) are library code. They enter as the functions of a `Spectral.Dsp` value and as the table passed to the rebuild. They are assumed to preserve length (`Spectral.LengthPreserving`, required by the driver); `magnitude` is assumed homogeneous and non-negative and `process` non-negative (the requires of `Spectral.GainYieldsCompressedMagnitude`); nothing else is assumed about them.
- `std::log2` and `std::log10` in `update_compressors` are parameters. `Processor.SpectralCompressorProcessor.UpdateCompressors`, and `WindowSteps.PinkThreshold` with `WindowSteps.MakeupGain`, state their results in terms of them.
- Samples are real numbers, not 32-bit floats, so float rounding is not modelled. The float ceiling in `windows_to_process` is the exact integer ceiling, which agrees with the source for blocks shorter than 2^24 samples.
- The scratch buffer is not modelled as the carrier of the per-channel data, because it only forwards values within one step: it is resized by the rebuild but otherwise unused. The window steps pass their intermediate values directly.
- The sidechain bus is taken as one sample sequence per input channel, separate from the main bus. Host layouts with a missing or shorter sidechain bus, and `isBusesLayoutSupported`, are left out. The model admits more output than input channels, a layout `isBusesLayoutSupported` (src/processor.cpp:253-263) refuses; in the host buffer the channels past the main input would be the sidechain's, and that aliasing is not modelled.
- Processor.SpectralCompressorProcessor.DoStft: states the block's effect as `Driver.BlockEffect`, which plays each chunk through `Driver.Transferred`; no lemma gives the samples played over a whole block as one formula in the block's input.
- Driver.WindowEffect: states only what the step keeps (shapes, cursors, and the compressors in the bypass stage). What it computes is its definition over `WindowSteps.BypassOutputs` and `WindowSteps.CompressedOutputs`, whose content `WindowSteps.BypassPlaysNewestHop` and `WindowSteps.CompressedOutputsOverlapAdd` state.
- Driver.Pass: states only shapes and the compressor count; `Driver.PassTransfersChunk` states a pass as a window step followed by a chunk transfer.
- Driver.Passes: states only shapes and the compressor count; by definition it is the pre-chunk followed by one `Driver.Pass` per window.
- Driver.BlockEffect: states only shapes and the compressor count; by definition it is `Driver.Passes` over every window of the block, after the unused channels are silenced.
- Driver.PreChunk: states only the case where nothing moves; otherwise it is `Driver.Transferred` of the pre-chunk.
- Ring.ReadNFromInPlace: states only that the cursor and capacity are kept; `Ring.ReadNFromInPlaceOverwrites` states its content.
- Ring.AddNFromInPlace: states only that the cursor and capacity are kept; `Ring.AddNFromInPlaceView` states its content.
- Transfer.ChannelTransfer: states only shapes and lengths; `Transfer.ChunkTransferStep` states it as one more channel of a chunk transfer, whose content `Transfer.ChunkTransferChannel` states.
- Transfer.ChunkTransfer: states only shapes and lengths; `Transfer.ChunkTransferChannel` states its content channel by channel.
- Spectral.CompressedSpectrum: states the bins it leaves alone; the scaled bins are stated by `Spectral.ApplyBinGains`.
- WindowSteps.AlignedBypassOutputs: states only that cursors and capacities are kept; its content is stated by `WindowSteps.AlignedBypassPlaysOldestHop`.
- Processor.Pow2: states only that the window is at least one sample; `Processor.WindowSizeRange` states the bound for the selectable orders.
- Spectral.SynthesisFrame: states only the frame length about its result. What the frame is (windowed, transformed, compressed bin by bin, transformed back) is its definition, and `Spectral.ApplyBinGains` and `Spectral.GainYieldsCompressedMagnitude` state the per-bin part.
- WindowSteps.BypassOutputs and WindowSteps.CompressedOutputs: state only that cursors and capacities are kept. Their content is stated by `WindowSteps.BypassPlaysNewestHop` and `WindowSteps.CompressedOutputsOverlapAdd`.

## Findings

| source | as written | input that shows it | evidently intended | confidence | as-written member | corrected member |
|---|---|---|---|---|---|---|
| src/processor.cpp:102-108 | the overlap parameter accepts any integer from 2 to 64, so the hop `window / overlap` need not divide the window; the driver aligns windows to the ring cursor modulo the hop, and the cursor wraps at the window size | window 512, overlap 3 (hop 170), two blocks of 512 samples from a fresh ring: windows start at stream samples 510 and 512, two samples apart instead of one hop | a power-of-two overlap (the TODO at line 101), so that the hop divides the window and windows start exactly at the multiples of the hop | not executed | Alignment.NonDividingHopBreaksCadence | Alignment.WindowCadence |
| src/processor.cpp:270-289 | the bypass step copies the newest hop of each input window to the output cursor, so the bypassed signal plays one hop after it arrived, while the spectral step overlap-adds a frame that starts with the oldest sample of the window, which plays one window after it arrived (the latency reported at lines 141, 149 and 460) | a 512-sample window holding the ramp 0, 1, ..., 511 and a hop of 128: the bypass plays sample 384 next, the spectral frame starts from sample 0 | the same latency as the spectral step (the comment at lines 270-271): copy the oldest hop of the window, so the bypassed output is the input one window late | not executed; rests on the ring semantics listed under "Left out" | WindowSteps.BypassRunsAheadOfSpectral | WindowSteps.AlignedBypassPlaysOldestHop |

The driver runs both window steps and the overlap parameter as the source has them, so that its contracts describe the program as written. The corrected members state the intended behaviour beside them.
