/**
 * The block/hop alignment arithmetic of the streaming STFT driver
 * (`do_stft`): how a host block of `numSamples` samples is cut into the
 * chunks between which the window step runs, given the input ring's cursor
 * `pos` and the hop (`windowing_interval`, the window size divided by the
 * overlap factor).
 *
 * A block is cut into a pre-alignment chunk of `AlreadyProcessed` samples,
 * which brings the cursor to the next hop boundary, followed by
 * `WindowsToProcess` loop chunks of at most `hop` samples. The window step
 * runs once before each loop chunk.
 */
module Alignment {

  import opened ModArith

  function Min(a: nat, b: nat): nat { if a <= b then a else b }

  /** Is ring position `p` the start of an analysis window? */
  predicate IsBoundary(p: nat, hop: nat)
    requires hop > 0
  {
    p % hop == 0
  }

  /** The number of samples from `pos` to the next hop boundary (0 on a boundary). */
  function ToNextBoundary(pos: nat, hop: nat): (d: nat)
    requires hop > 0
    ensures d < hop
    ensures d == 0 <==> IsBoundary(pos, hop)
    ensures IsBoundary(pos + d, hop)
    ensures forall p :: pos < p < pos + d ==> !IsBoundary(p, hop)
  {
    var q, r := pos / hop, pos % hop;
    if r == 0 then
      ModUnique(hop, hop, 1, 0);
      0
    else
      var d := hop - r;
      ModUnique(hop - r, hop, 0, hop - r);
      ModUnique(pos + d, hop, q + 1, 0);
      assert forall p :: pos < p < pos + d ==> p % hop == r + (p - pos) by {
        forall p | pos < p < pos + d
          ensures p % hop == r + (p - pos)
        {
          ModUnique(p, hop, q, r + (p - pos));
        }
      }
      (hop - pos % hop) % hop
  }

  /**
   * `already_processed_samples` (src/processor.cpp:623-627): the samples the
   * block needs before the input cursor reaches the next hop boundary, capped
   * by the block length. It is below one hop, 0 exactly when the cursor is on
   * a boundary (or the block is empty), and it either exhausts the block or
   * stops on the first boundary after `pos`.
   */
  function AlreadyProcessed(numSamples: nat, pos: nat, hop: nat): (r: nat)
    requires hop > 0
    ensures r < hop && r <= numSamples
    ensures r == 0 <==> (numSamples == 0 || IsBoundary(pos, hop))
    ensures r == numSamples || IsBoundary(pos + r, hop)
    ensures forall p :: pos < p < pos + r ==> !IsBoundary(p, hop)
  {
    Min(numSamples, ToNextBoundary(pos, hop))
  }

  lemma MulMono(a: nat, b: nat, c: nat)
    requires a <= b
    ensures a * c <= b * c
  {
    assert b * c == a * c + (b - a) * c;
  }

  /** Integer ceiling of `a / b`. */
  function CeilDiv(a: nat, b: nat): (q: nat)
    requires b > 0
    ensures q * b >= a
    ensures q > 0 ==> (q - 1) * b < a
    ensures a == 0 <==> q == 0
  {
    var q := (a + b - 1) / b;
    var r := (a + b - 1) % b;
    ModUnique(a + b - 1, b, q, r);
    assert (q - 1) * b == q * b - b;
    q
  }

  /**
   * `windows_to_process` (src/processor.cpp:628-631): the ceiling of the
   * samples left after pre-alignment over the hop. The loop chunks then reach
   * the end of the block and none of them is empty.
   */
  function WindowsToProcess(numSamples: nat, pos: nat, hop: nat): (w: nat)
    requires hop > 0
    ensures AlreadyProcessed(numSamples, pos, hop) + w * hop >= numSamples
    ensures w > 0 ==> AlreadyProcessed(numSamples, pos, hop) + (w - 1) * hop < numSamples
    ensures w == 0 <==> AlreadyProcessed(numSamples, pos, hop) == numSamples
  {
    CeilDiv(numSamples - AlreadyProcessed(numSamples, pos, hop), hop)
  }

  /** The block offset at which loop chunk `j` starts. */
  function ChunkStart(numSamples: nat, pos: nat, hop: nat, j: nat): nat
    requires hop > 0
  {
    AlreadyProcessed(numSamples, pos, hop) + j * hop
  }

  /** The ring slot of the input cursor at each of the first `j` window steps, the cursor starting at `pos`. */
  function WindowSlots(numSamples: nat, pos: nat, hop: nat, capacity: nat, j: nat): (s: seq<nat>)
    requires hop > 0 && capacity > 0
    ensures |s| == j && forall k :: 0 <= k < j ==> s[k] == (pos + ChunkStart(numSamples, pos, hop, k)) % capacity
  {
    seq(j, k requires 0 <= k < j => (pos + ChunkStart(numSamples, pos, hop, k)) % capacity)
  }

  /** Every loop chunk starts inside the block. */
  lemma ChunkStartInBlock(numSamples: nat, pos: nat, hop: nat, j: nat)
    requires hop > 0 && j < WindowsToProcess(numSamples, pos, hop)
    ensures ChunkStart(numSamples, pos, hop, j) < numSamples
  {
    MulMono(j, WindowsToProcess(numSamples, pos, hop) - 1, hop);
  }

  /** `samples_to_process_this_iteration` of loop chunk `j`. */
  function ChunkLength(numSamples: nat, pos: nat, hop: nat, j: nat): (n: nat)
    requires hop > 0 && j < WindowsToProcess(numSamples, pos, hop)
    ensures 0 < n <= hop
    ensures ChunkStart(numSamples, pos, hop, j) + n <= numSamples
  {
    ChunkStartInBlock(numSamples, pos, hop, j);
    Min(hop, numSamples - ChunkStart(numSamples, pos, hop, j))
  }

  /** Loop chunk `j` ends where chunk `j + 1` starts, or at the end of the block. */
  lemma ChunkEnd(numSamples: nat, pos: nat, hop: nat, j: nat)
    requires hop > 0 && j < WindowsToProcess(numSamples, pos, hop)
    ensures ChunkStart(numSamples, pos, hop, j) + ChunkLength(numSamples, pos, hop, j)
         == Min(numSamples, ChunkStart(numSamples, pos, hop, j + 1))
  {
    assert (j + 1) * hop == j * hop + hop;
    assert ChunkStart(numSamples, pos, hop, j + 1) == ChunkStart(numSamples, pos, hop, j) + hop;
  }

  /** The lengths of the loop chunks of a block, in order. */
  function LoopChunkLengths(numSamples: nat, pos: nat, hop: nat): (s: seq<nat>)
    requires hop > 0
    ensures |s| == WindowsToProcess(numSamples, pos, hop)
  {
    var w := WindowsToProcess(numSamples, pos, hop);
    seq(w, j requires 0 <= j < w => ChunkLength(numSamples, pos, hop, j))
  }

  function Sum(s: seq<nat>): nat
  {
    if s == [] then 0 else Sum(s[..|s| - 1]) + s[|s| - 1]
  }

  /** After `k` loop chunks the offset is `min(numSamples, already + k * hop)`. */
  lemma {:induction false} LoopChunksSumTo(numSamples: nat, pos: nat, hop: nat, k: nat)
    requires hop > 0 && k <= WindowsToProcess(numSamples, pos, hop)
    ensures AlreadyProcessed(numSamples, pos, hop) + Sum(LoopChunkLengths(numSamples, pos, hop)[..k])
         == Min(numSamples, ChunkStart(numSamples, pos, hop, k))
  {
    var lens := LoopChunkLengths(numSamples, pos, hop);
    if k > 0 {
      LoopChunksSumTo(numSamples, pos, hop, k - 1);
      assert lens[..k][..k - 1] == lens[..k - 1];
      assert Sum(lens[..k]) == Sum(lens[..k - 1]) + lens[k - 1];
      ChunkStartInBlock(numSamples, pos, hop, k - 1);
      ChunkEnd(numSamples, pos, hop, k - 1);
    }
  }

  /**
   * The chunks partition the block (src/processor.cpp:628-631, 664-698): the
   * pre-alignment chunk is shorter than a hop, every loop chunk holds between
   * 1 and `hop` samples, and together they add up to exactly `numSamples`,
   * which is the final `jassert(sample_buffer_offset == num_samples)`.
   */
  lemma ChunksPartitionBlock(numSamples: nat, pos: nat, hop: nat)
    requires hop > 0
    ensures AlreadyProcessed(numSamples, pos, hop) < hop
    ensures forall j :: 0 <= j < |LoopChunkLengths(numSamples, pos, hop)| ==>
      0 < LoopChunkLengths(numSamples, pos, hop)[j] <= hop
    ensures AlreadyProcessed(numSamples, pos, hop) + Sum(LoopChunkLengths(numSamples, pos, hop)) == numSamples
  {
    var lens := LoopChunkLengths(numSamples, pos, hop);
    LoopChunksSumTo(numSamples, pos, hop, |lens|);
    assert lens[..|lens|] == lens;
  }

  /** `(x % cap) % hop == x % hop` when `hop` divides `cap`. */
  lemma ModOfMod(x: nat, cap: nat, hop: nat)
    requires hop > 0 && cap > 0 && cap % hop == 0
    ensures (x % cap) % hop == x % hop
  {
    var m := cap / hop;
    ModUnique(cap, hop, m, 0);
    var q, r := x / cap, x % cap;
    ModUnique(x, cap, q, r);
    var q2, r2 := r / hop, r % hop;
    ModUnique(r, hop, q2, r2);
    assert x == (q * m + q2) * hop + r2;
    ModUnique(x, hop, q * m + q2, r2);
  }

  /**
   * The window step only runs at a window boundary (src/processor.cpp:662-666):
   * when the hop divides the ring capacity, the input cursor before loop
   * chunk `j`, `(pos + ChunkStart(j)) % capacity`, is a multiple of the hop.
   */
  lemma WindowStepAtBoundary(numSamples: nat, pos: nat, hop: nat, capacity: nat, j: nat)
    requires hop > 0 && capacity > 0 && capacity % hop == 0
    requires j < WindowsToProcess(numSamples, pos, hop)
    ensures IsBoundary((pos + ChunkStart(numSamples, pos, hop, j)) % capacity, hop)
  {
    var a := AlreadyProcessed(numSamples, pos, hop);
    assert IsBoundary(pos + a, hop);
    var q := (pos + a) / hop;
    ModUnique(pos + a, hop, q, 0);
    ModUnique(pos + a + j * hop, hop, q + j, 0);
    ModOfMod(pos + a + j * hop, capacity, hop);
  }

  /** With the hop dividing the capacity, every window step of a block finds the input cursor on a hop boundary. */
  lemma WindowSlotsOnBoundaries(numSamples: nat, pos: nat, hop: nat, capacity: nat)
    requires hop > 0 && capacity > 0 && capacity % hop == 0
    ensures var slots := WindowSlots(numSamples, pos, hop, capacity, WindowsToProcess(numSamples, pos, hop));
      forall k :: 0 <= k < |slots| ==> IsBoundary(slots[k], hop)
  {
    var slots := WindowSlots(numSamples, pos, hop, capacity, WindowsToProcess(numSamples, pos, hop));
    forall k | 0 <= k < |slots|
      ensures IsBoundary(slots[k], hop)
    {
      WindowStepAtBoundary(numSamples, pos, hop, capacity, k);
    }
  }

  /** Equal remainders stay equal when the same amount is added. */
  lemma ModShift(x: nat, y: nat, t: nat, hop: nat)
    requires hop > 0 && x % hop == y % hop
    ensures (x + t) % hop == (y + t) % hop
  {
    var r := (x + t) % hop;
    ModUnique(x, hop, x / hop, x % hop);
    ModUnique(y, hop, y / hop, y % hop);
    ModUnique(x + t, hop, (x + t) / hop, r);
    ModUnique(y + t, hop, (x + t) / hop - x / hop + y / hop, r);
  }

  /**
   * Stream sample `p` is one at which the window step runs while a block of
   * `numSamples` samples starting at stream sample `streamStart` is handled,
   * the rings (of the given capacity) having been created with their cursor at
   * 0 at stream sample 0, so that the input cursor is `streamStart % capacity`.
   */
  predicate IsWindowStart(streamStart: nat, numSamples: nat, capacity: nat, hop: nat, p: nat)
    requires hop > 0 && capacity > 0
  {
    var pos := streamStart % capacity;
    exists j :: 0 <= j < WindowsToProcess(numSamples, pos, hop) && p == streamStart + ChunkStart(numSamples, pos, hop, j)
  }

  /** Every window step of a block runs at a multiple of the hop (hop dividing the capacity). */
  lemma WindowStartsAreMultiples(streamStart: nat, numSamples: nat, capacity: nat, hop: nat, j: nat)
    requires hop > 0 && capacity > 0 && capacity % hop == 0
    requires j < WindowsToProcess(numSamples, streamStart % capacity, hop)
    ensures (streamStart + ChunkStart(numSamples, streamStart % capacity, hop, j)) % hop == 0
  {
    var pos := streamStart % capacity;
    ModOfMod(streamStart, capacity, hop);
    var a := AlreadyProcessed(numSamples, pos, hop);
    ModShift(pos, streamStart, a, hop);
    var q := ExactQuotient(streamStart + a, hop);
    assert streamStart + a + j * hop == (q + j) * hop;
    ModUnique(streamStart + a + j * hop, hop, q + j, 0);
  }

  /** A multiple of the hop is its quotient times the hop. */
  lemma ExactQuotient(x: nat, hop: nat) returns (q: nat)
    requires hop > 0 && x % hop == 0
    ensures x == q * hop
  {
    q := x / hop;
    ModUnique(x, hop, q, 0);
  }

  /** The difference of two multiples of the hop, the larger one second. */
  lemma MultipleDifference(x: nat, y: nat, qx: nat, qy: nat, hop: nat) returns (d: nat)
    requires hop > 0 && x == qx * hop && y == qy * hop && x <= y
    ensures y - x == d * hop && d == qy - qx
  {
    if qy < qx {
      MulMono(qy + 1, qx, hop);
    }
    d := qy - qx;
    assert y - x == d * hop;
  }

  /** The block samples before the first boundary of the block are not multiples of the hop. */
  lemma NoMultipleBeforeAlignment(streamStart: nat, numSamples: nat, capacity: nat, hop: nat, t: nat)
    requires hop > 0 && capacity > 0 && capacity % hop == 0
    requires t < AlreadyProcessed(numSamples, streamStart % capacity, hop)
    ensures (streamStart + t) % hop != 0
  {
    var pos := streamStart % capacity;
    ModOfMod(streamStart, capacity, hop);
    ModShift(pos, streamStart, t, hop);
    if t == 0 {
      assert !IsBoundary(pos, hop);
    } else {
      assert !IsBoundary(pos + t, hop);
    }
  }

  /** The end of the pre-alignment chunk is a multiple of the hop unless it ends the block. */
  lemma AlignedAfterPreChunk(streamStart: nat, numSamples: nat, capacity: nat, hop: nat)
    requires hop > 0 && capacity > 0 && capacity % hop == 0
    requires AlreadyProcessed(numSamples, streamStart % capacity, hop) < numSamples
    ensures (streamStart + AlreadyProcessed(numSamples, streamStart % capacity, hop)) % hop == 0
  {
    var pos := streamStart % capacity;
    ModOfMod(streamStart, capacity, hop);
    ModShift(pos, streamStart, AlreadyProcessed(numSamples, pos, hop), hop);
  }

  /** Every multiple of the hop inside a block is the start of one of its loop chunks. */
  lemma MultiplesAreWindowStarts(streamStart: nat, numSamples: nat, capacity: nat, hop: nat, p: nat)
    returns (j: nat)
    requires hop > 0 && capacity > 0 && capacity % hop == 0
    requires streamStart <= p < streamStart + numSamples && p % hop == 0
    ensures j < WindowsToProcess(numSamples, streamStart % capacity, hop)
    ensures p == streamStart + ChunkStart(numSamples, streamStart % capacity, hop, j)
  {
    var pos := streamStart % capacity;
    var a := AlreadyProcessed(numSamples, pos, hop);
    var w := WindowsToProcess(numSamples, pos, hop);
    if p - streamStart < a {
      NoMultipleBeforeAlignment(streamStart, numSamples, capacity, hop, p - streamStart);
    }
    AlignedAfterPreChunk(streamStart, numSamples, capacity, hop);
    var qa := ExactQuotient(streamStart + a, hop);
    var qp := ExactQuotient(p, hop);
    j := MultipleDifference(streamStart + a, p, qa, qp, hop);
    if j >= w {
      MulMono(w, j, hop);
    }
  }

  /**
   * The intended cadence: when the hop divides the ring capacity (the overlap
   * factor is a power of two, as the TODO at src/processor.cpp:101 asks), the
   * window step runs at exactly the stream samples of the block that are
   * multiples of the hop, whatever the block sizes are.
   */
  lemma WindowCadence(streamStart: nat, numSamples: nat, capacity: nat, hop: nat, p: nat)
    requires hop > 0 && capacity > 0 && capacity % hop == 0
    requires streamStart <= p < streamStart + numSamples
    ensures IsWindowStart(streamStart, numSamples, capacity, hop, p) <==> p % hop == 0
  {
    if IsWindowStart(streamStart, numSamples, capacity, hop, p) {
      var pos := streamStart % capacity;
      var j :| 0 <= j < WindowsToProcess(numSamples, pos, hop) && p == streamStart + ChunkStart(numSamples, pos, hop, j);
      WindowStartsAreMultiples(streamStart, numSamples, capacity, hop, j);
    }
    if p % hop == 0 {
      var j := MultiplesAreWindowStarts(streamStart, numSamples, capacity, hop, p);
    }
  }

  lemma BlockOf512At0()
    ensures AlreadyProcessed(512, 0, 170) == 0 && WindowsToProcess(512, 0, 170) == 4
  {
    assert ToNextBoundary(0, 170) == 0;
    assert CeilDiv(512, 170) == 4 by {
      ModUnique(681, 170, 4, 1);
    }
  }

  /**
   * As written, the overlap factor may be any integer from 2 to 64
   * (src/processor.cpp:102-108). With a window of 512 samples and an overlap
   * of 3 the hop is 170, which does not divide the ring capacity: one block of
   * 512 samples runs the window step at stream sample 510 and the next block
   * runs it again at stream sample 512, two samples later instead of a hop.
   */
  lemma NonDividingHopBreaksCadence()
    ensures 512 / 3 == 170 && 512 % 170 != 0
    ensures IsWindowStart(0, 512, 512, 170, 510)
    ensures IsWindowStart(512, 512, 512, 170, 512)
  {
    ModUnique(512, 3, 170, 2);
    ModUnique(512, 170, 3, 2);
    FirstBlockLastWindow();
    SecondBlockFirstWindow();
  }

  lemma FirstBlockLastWindow()
    ensures IsWindowStart(0, 512, 512, 170, 510)
  {
    BlockOf512At0();
    assert 3 < WindowsToProcess(512, 0 % 512, 170) && 510 == 0 + ChunkStart(512, 0 % 512, 170, 3);
  }

  /** A non-empty block whose input cursor is on a boundary runs the window step first. */
  lemma WindowAtAlignedBlockStart(streamStart: nat, numSamples: nat, capacity: nat, hop: nat)
    requires hop > 0 && capacity > 0 && numSamples > 0
    requires IsBoundary(streamStart % capacity, hop)
    ensures IsWindowStart(streamStart, numSamples, capacity, hop, streamStart)
  {
    var pos := streamStart % capacity;
    assert ChunkStart(numSamples, pos, hop, 0) == 0;
  }

  lemma SecondBlockFirstWindow()
    ensures IsWindowStart(512, 512, 512, 170, 512)
  {
    ModUnique(512, 512, 1, 0);
    ModUnique(0, 170, 0, 0);
    WindowAtAlignedBlockStart(512, 512, 512, 170);
  }

  /**
   * The samples at the start of a block that the latency gate silences
   * (src/processor.cpp:645-651, 680-687): the gate is checked against the
   * processed-window count, which is `windowsProcessed` for the pre-alignment
   * chunk and `windowsProcessed + j + 1` for loop chunk `j`.
   */
  function SilentPrefix(numSamples: nat, pos: nat, hop: nat, windowsProcessed: nat, overlap: nat): (s: nat)
    requires hop > 0
    ensures s <= numSamples
  {
    if windowsProcessed >= overlap then 0
    else
      var closed: nat := overlap - windowsProcessed - 1;
      var silentWindows: nat := closed * hop;
      Min(numSamples, AlreadyProcessed(numSamples, pos, hop) + silentWindows)
  }

  /**
   * The silent prefix is exactly the union of the chunks handled while the
   * gate is closed: a chunk handled with the gate closed lies inside it, and a
   * chunk handled with the gate open lies after it.
   */
  lemma SilentPrefixIsGatedChunks(numSamples: nat, pos: nat, hop: nat, windowsProcessed: nat, overlap: nat, j: nat)
    requires hop > 0 && j < WindowsToProcess(numSamples, pos, hop)
    ensures windowsProcessed + j + 1 < overlap ==>
      ChunkStart(numSamples, pos, hop, j) + ChunkLength(numSamples, pos, hop, j)
        <= SilentPrefix(numSamples, pos, hop, windowsProcessed, overlap)
    ensures windowsProcessed + j + 1 >= overlap ==>
      SilentPrefix(numSamples, pos, hop, windowsProcessed, overlap) <= ChunkStart(numSamples, pos, hop, j)
  {
    if windowsProcessed < overlap {
      var g := overlap - windowsProcessed - 1;
      if j < g {
        MulMono(j + 1, g, hop);
        assert ChunkStart(numSamples, pos, hop, j) + hop == AlreadyProcessed(numSamples, pos, hop) + (j + 1) * hop;
      } else {
        MulMono(g, j, hop);
      }
    }
  }

  /**
   * The chunk before the first window lies inside the silent prefix while
   * the gate is closed, and there is no silent prefix once it is open.
   */
  lemma SilentPrefixCoversPreChunk(numSamples: nat, pos: nat, hop: nat, windowsProcessed: nat, overlap: nat)
    requires hop > 0
    ensures windowsProcessed < overlap ==>
      AlreadyProcessed(numSamples, pos, hop) <= SilentPrefix(numSamples, pos, hop, windowsProcessed, overlap)
    ensures windowsProcessed >= overlap ==> SilentPrefix(numSamples, pos, hop, windowsProcessed, overlap) == 0
  {
    if windowsProcessed < overlap {
      var closed: nat := overlap - windowsProcessed - 1;
      MulMono(0, closed, hop);
    }
  }

  /**
   * Loop chunk `j` of the driver, started at `offset`: it starts where
   * `ChunkStart` says, is `min(hop, numSamples - offset)` long, ends where the
   * next one starts, and lies inside the silent prefix exactly when it is
   * transferred with the gate still closed.
   */
  lemma LoopChunkGated(numSamples: nat, pos: nat, hop: nat, windowsProcessed: nat, overlap: nat, j: nat, offset: nat)
    requires hop > 0 && j < WindowsToProcess(numSamples, pos, hop)
    requires offset == Min(numSamples, ChunkStart(numSamples, pos, hop, j))
    ensures offset == ChunkStart(numSamples, pos, hop, j) && 0 < Min(hop, numSamples - offset) <= hop
    ensures offset + Min(hop, numSamples - offset) == Min(numSamples, ChunkStart(numSamples, pos, hop, j + 1))
    ensures windowsProcessed + j + 1 < overlap ==>
      offset + Min(hop, numSamples - offset) <= SilentPrefix(numSamples, pos, hop, windowsProcessed, overlap)
    ensures windowsProcessed + j + 1 >= overlap ==>
      SilentPrefix(numSamples, pos, hop, windowsProcessed, overlap) <= offset
  {
    ChunkStartInBlock(numSamples, pos, hop, j);
    ChunkEnd(numSamples, pos, hop, j);
    SilentPrefixIsGatedChunks(numSamples, pos, hop, windowsProcessed, overlap, j);
  }
}
