/**
 * What the STFT driver has done to the streams after the first `offset`
 * samples of a block: the input (and sidechain) rings have been fed those
 * samples, the output rings have played all of them that came after the
 * silent prefix, and the bus holds silence over the silent prefix and the
 * untouched input after `offset`.
 */
module Stft {

  import opened ModArith
  import opened Ring
  import opened Alignment
  import opened Transfer

  /**
   * Ring `now[c]` is ring `start[c]` fed the first `offset` samples of
   * `rows[c]`: its view is the sliding window over the stream and its cursor
   * has advanced by `offset`.
   */
  ghost predicate RingsFed(now: seq<Ring>, start: seq<Ring>, rows: seq<seq<real>>, offset: nat, capacity: nat)
  {
    && |now| == |start| <= |rows|
    && AllSized(now, |now|, capacity) && AllSized(start, |start|, capacity)
    && forall c :: 0 <= c < |now| ==>
         && offset <= |rows[c]|
         && View(now[c]) == Feed(View(start[c]), rows[c][..offset])
         && now[c].pos == (start[c].pos + offset) % capacity
  }

  /** The cursor of every ring in `now` is `steps` slots after the one in `start`. */
  ghost predicate Advanced(now: seq<Ring>, start: seq<Ring>, steps: nat, capacity: nat)
  {
    && |now| == |start|
    && AllSized(now, |now|, capacity) && AllSized(start, |start|, capacity)
    && forall c :: 0 <= c < |now| ==> now[c].pos == (start[c].pos + steps) % capacity
  }

  /** The same cursors and capacities, ring by ring. */
  ghost predicate SamePlaces(a: seq<Ring>, b: seq<Ring>)
  {
    |a| == |b| && forall c :: 0 <= c < |a| ==> b[c].Valid() && b[c].pos == a[c].pos && b[c].Capacity() == a[c].Capacity()
  }

  /**
   * The bus after the first `offset` samples: in the first `channels`
   * channels the silent prefix seen so far is zero and everything from
   * `offset` on is the block's input; the other channels are as they were.
   */
  ghost predicate BusWritten(now: seq<seq<real>>, start: seq<seq<real>>, channels: nat, offset: nat, silent: nat)
  {
    && |now| == |start| && channels <= |now|
    && (forall c :: 0 <= c < |now| ==> |now[c]| == |start[c]| && offset <= |start[c]|)
    && (forall c :: 0 <= c < channels ==>
          && now[c][offset..] == start[c][offset..]
          && now[c][..Min(offset, silent)] == Zeros(Min(offset, silent)))
    && (forall c :: channels <= c < |now| ==> now[c] == start[c])
  }

  /** The streams `t` after the first `offset` samples of a block that started as `s0`. */
  ghost predicate Streamed(t: Streams, s0: Streams, sides: seq<seq<real>>, offset: nat, silent: nat,
                           sidechainActive: bool, capacity: nat)
  {
    && t.Shaped(capacity) && s0.Shaped(capacity) && |t.inputs| == |s0.inputs|
    && RingsFed(t.inputs, s0.inputs, s0.io, offset, capacity)
    && (if sidechainActive then |sides| == |s0.inputs| && RingsFed(t.sidechains, s0.sidechains, sides, offset, capacity)
        else t.sidechains == s0.sidechains)
    && Advanced(t.outputs, s0.outputs, offset - Min(offset, silent), capacity)
    && BusWritten(t.io, s0.io, |s0.inputs|, offset, silent)
  }

  /** Feeding the next chunk of a row continues the sliding window over the row. */
  lemma FeedChunk(r: Ring, v0: seq<real>, row: seq<real>, p0: nat, offset: nat, len: nat, end: nat)
    requires r.Valid() && end == offset + len && end <= |row| && len <= r.Capacity()
    requires View(r) == Feed(v0, row[..offset]) && r.pos == (p0 + offset) % r.Capacity()
    ensures View(ReadNFrom(r, row[offset..offset + len], len)) == Feed(v0, row[..end])
    ensures ReadNFrom(r, row[offset..offset + len], len).pos == (p0 + end) % r.Capacity()
  {
    var chunk, v := row[offset..offset + len], View(r);
    ReadNFromAppends(r, chunk, len);
    assert chunk[..len] == chunk;
    assert View(ReadNFrom(r, chunk, len)) == Feed(v, chunk);
    FeedFeed(v0, row[..offset], chunk);
    assert row[..offset] + chunk == row[..end];
    OffsetOfOffset(p0, offset, len, r.Capacity());
    assert p0 + offset + len == p0 + end;
  }

  lemma RingsFedStep(now: seq<Ring>, next: seq<Ring>, start: seq<Ring>, rows: seq<seq<real>>,
                     offset: nat, len: nat, end: nat, capacity: nat)
    requires RingsFed(now, start, rows, offset, capacity) && len <= capacity && end == offset + len
    requires forall c :: 0 <= c < |now| ==> end <= |rows[c]|
    requires |next| == |now|
    requires forall c :: 0 <= c < |now| ==> next[c] == ReadNFrom(now[c], rows[c][offset..offset + len], len)
    ensures RingsFed(next, start, rows, end, capacity)
  {
    forall c | 0 <= c < |now|
      ensures View(next[c]) == Feed(View(start[c]), rows[c][..end])
      ensures next[c].pos == (start[c].pos + end) % capacity
    {
      FeedChunk(now[c], View(start[c]), rows[c], start[c].pos, offset, len, end);
    }
  }

  lemma AdvancedStep(now: seq<Ring>, next: seq<Ring>, start: seq<Ring>, steps: nat, len: nat, total: nat, capacity: nat)
    requires Advanced(now, start, steps, capacity) && len <= capacity && total == steps + len
    requires |next| == |now|
    requires forall c :: 0 <= c < |now| ==> next[c] == CopyNTo(now[c], len, true).1
    ensures Advanced(next, start, total, capacity)
  {
    forall c | 0 <= c < |now|
      ensures next[c].pos == (start[c].pos + total) % capacity
    {
      var p0, p := start[c].pos, now[c].pos;
      assert p == (p0 + steps) % capacity;
      assert next[c].pos == (p + len) % capacity;
      OffsetOfOffset(p0, steps, len, capacity);
      assert p0 + steps + len == p0 + total;
    }
  }

  lemma BusStep(now: seq<seq<real>>, next: seq<seq<real>>, start: seq<seq<real>>, played: seq<seq<real>>,
                channels: nat, offset: nat, len: nat, end: nat, silent: nat, gateOpen: bool)
    requires BusWritten(now, start, channels, offset, silent)
    requires forall c :: 0 <= c < |now| ==> offset + len <= |start[c]|
    requires |played| == channels && forall c :: 0 <= c < channels ==> |played[c]| == len
    requires !gateOpen ==> offset + len <= silent && forall c :: 0 <= c < channels ==> played[c] == Zeros(len)
    requires gateOpen ==> silent <= offset
    requires |next| == |now|
    requires forall c :: 0 <= c < |now| ==> next[c] == if c < channels then Splice(now[c], offset, played[c]) else now[c]
    requires end == offset + len
    ensures BusWritten(next, start, channels, end, silent)
  {
    forall c | 0 <= c < channels
      ensures next[c][end..] == start[c][end..]
      ensures next[c][..Min(end, silent)] == Zeros(Min(end, silent))
    {
      assert next[c][end..] == now[c][end..];
      assert now[c][end..] == now[c][offset..][len..];
      if !gateOpen {
        assert next[c][..end] == next[c][..offset] + next[c][offset..end];
      } else {
        assert next[c][..offset] == now[c][..offset];
        assert next[c][..Min(end, silent)] == now[c][..offset][..Min(offset, silent)];
      }
    }
  }

  /** At the start of a block nothing has been streamed. */
  lemma StreamedStart(s0: Streams, sides: seq<seq<real>>, silent: nat, sidechainActive: bool, capacity: nat)
    requires s0.Shaped(capacity) && |sides| == |s0.inputs|
    ensures Streamed(s0, s0, sides, 0, silent, sidechainActive, capacity)
  {
    forall c | 0 <= c < |s0.inputs|
      ensures View(s0.inputs[c]) == Feed(View(s0.inputs[c]), s0.io[c][..0])
      ensures View(s0.sidechains[c]) == Feed(View(s0.sidechains[c]), sides[c][..0])
      ensures s0.inputs[c].pos == (s0.inputs[c].pos + 0) % capacity
      ensures s0.sidechains[c].pos == (s0.sidechains[c].pos + 0) % capacity
      ensures s0.outputs[c].pos == (s0.outputs[c].pos + 0) % capacity
    {
      ModUnique(s0.inputs[c].pos, capacity, 0, s0.inputs[c].pos);
      ModUnique(s0.sidechains[c].pos, capacity, 0, s0.sidechains[c].pos);
      ModUnique(s0.outputs[c].pos, capacity, 0, s0.outputs[c].pos);
    }
  }

  /**
   * The next chunk, `len` samples at `offset`, fits the block and the rings,
   * and lies inside the silent prefix when the gate is closed and after it
   * when the gate is open.
   */
  ghost predicate ChunkAllowed(t: Streams, s0: Streams, sides: seq<seq<real>>, offset: nat, len: nat, silent: nat,
                               gateOpen: bool, sidechainActive: bool, capacity: nat)
  {
    && Streamed(t, s0, sides, offset, silent, sidechainActive, capacity)
    && len <= capacity && |sides| == |s0.inputs|
    && (forall c :: 0 <= c < |s0.io| ==> offset + len <= |s0.io[c]|)
    && (forall c :: 0 <= c < |sides| ==> offset + len <= |sides[c]|)
    && (!gateOpen ==> offset + len <= silent)
    && (gateOpen ==> silent <= offset)
  }

  /** The streams after transferring the next chunk. */
  ghost function NextChunk(t: Streams, s0: Streams, sides: seq<seq<real>>, offset: nat, len: nat, silent: nat,
                           gateOpen: bool, sidechainActive: bool, capacity: nat): Streams
    requires ChunkAllowed(t, s0, sides, offset, len, silent, gateOpen, sidechainActive, capacity)
  {
    ChunkTransfer(t, Chunks(sides, |t.inputs|, offset, len), |t.inputs|, offset, len, gateOpen, sidechainActive, capacity)
  }

  lemma ChunkReadsInput(t: Streams, s0: Streams, sides: seq<seq<real>>, offset: nat, len: nat, silent: nat,
                        gateOpen: bool, sidechainActive: bool, capacity: nat)
    requires ChunkAllowed(t, s0, sides, offset, len, silent, gateOpen, sidechainActive, capacity)
    ensures forall c :: 0 <= c < |t.inputs| ==> t.io[c][offset..offset + len] == s0.io[c][offset..offset + len]
  {
    forall c | 0 <= c < |t.inputs|
      ensures t.io[c][offset..offset + len] == s0.io[c][offset..offset + len]
    {
      assert t.io[c][offset..offset + len] == t.io[c][offset..][..len];
      assert s0.io[c][offset..offset + len] == s0.io[c][offset..][..len];
    }
  }

  lemma StepFeedsInputs(t: Streams, s0: Streams, sides: seq<seq<real>>, offset: nat, len: nat, end: nat, silent: nat,
                        gateOpen: bool, sidechainActive: bool, capacity: nat)
    requires ChunkAllowed(t, s0, sides, offset, len, silent, gateOpen, sidechainActive, capacity)
    requires end == offset + len
    ensures RingsFed(NextChunk(t, s0, sides, offset, len, silent, gateOpen, sidechainActive, capacity).inputs,
                     s0.inputs, s0.io, end, capacity)
  {
    var next := NextChunk(t, s0, sides, offset, len, silent, gateOpen, sidechainActive, capacity);
    ChunkReadsInput(t, s0, sides, offset, len, silent, gateOpen, sidechainActive, capacity);
    RingsFedStep(t.inputs, next.inputs, s0.inputs, s0.io, offset, len, end, capacity);
  }

  lemma StepFeedsSidechains(t: Streams, s0: Streams, sides: seq<seq<real>>, offset: nat, len: nat, end: nat,
                            silent: nat, gateOpen: bool, sidechainActive: bool, capacity: nat)
    requires ChunkAllowed(t, s0, sides, offset, len, silent, gateOpen, sidechainActive, capacity)
    requires end == offset + len
    ensures var next := NextChunk(t, s0, sides, offset, len, silent, gateOpen, sidechainActive, capacity);
      if sidechainActive then RingsFed(next.sidechains, s0.sidechains, sides, end, capacity)
      else next.sidechains == s0.sidechains
  {
    var next := NextChunk(t, s0, sides, offset, len, silent, gateOpen, sidechainActive, capacity);
    if sidechainActive {
      RingsFedStep(t.sidechains, next.sidechains, s0.sidechains, sides, offset, len, end, capacity);
    } else {
      assert next.sidechains == t.sidechains;
    }
  }

  lemma StepPlaysOutputs(t: Streams, s0: Streams, sides: seq<seq<real>>, offset: nat, len: nat, end: nat, silent: nat,
                         gateOpen: bool, sidechainActive: bool, capacity: nat)
    requires ChunkAllowed(t, s0, sides, offset, len, silent, gateOpen, sidechainActive, capacity)
    requires end == offset + len
    ensures Advanced(NextChunk(t, s0, sides, offset, len, silent, gateOpen, sidechainActive, capacity).outputs,
                     s0.outputs, end - Min(end, silent), capacity)
  {
    var next := NextChunk(t, s0, sides, offset, len, silent, gateOpen, sidechainActive, capacity);
    var silentSoFar := Min(offset, silent);
    if gateOpen {
      AdvancedStep(t.outputs, next.outputs, s0.outputs, offset - silentSoFar, len, end - Min(end, silent), capacity);
    } else {
      assert next.outputs == t.outputs;
    }
  }

  lemma StepWritesBus(t: Streams, s0: Streams, sides: seq<seq<real>>, offset: nat, len: nat, end: nat, silent: nat,
                      gateOpen: bool, sidechainActive: bool, capacity: nat)
    requires ChunkAllowed(t, s0, sides, offset, len, silent, gateOpen, sidechainActive, capacity)
    requires end == offset + len
    ensures BusWritten(NextChunk(t, s0, sides, offset, len, silent, gateOpen, sidechainActive, capacity).io,
                       s0.io, |s0.inputs|, end, silent)
  {
    var next := NextChunk(t, s0, sides, offset, len, silent, gateOpen, sidechainActive, capacity);
    var played := seq(|t.inputs|, c requires 0 <= c < |t.inputs| => Played(t.outputs[c], len, gateOpen));
    BusStep(t.io, next.io, s0.io, played, |t.inputs|, offset, len, end, silent, gateOpen);
  }

  /**
   * The bus chunk of every input channel is what its output ring played:
   * the `len` oldest samples of the ring when the gate is open, silence when
   * it is closed.
   */
  lemma StepPlaysChunk(t: Streams, s0: Streams, sides: seq<seq<real>>, offset: nat, len: nat, end: nat, silent: nat,
                       gateOpen: bool, sidechainActive: bool, capacity: nat)
    requires ChunkAllowed(t, s0, sides, offset, len, silent, gateOpen, sidechainActive, capacity)
    requires end == offset + len
    ensures forall c :: 0 <= c < |t.inputs| ==>
      NextChunk(t, s0, sides, offset, len, silent, gateOpen, sidechainActive, capacity).io[c][offset..end]
        == Played(t.outputs[c], len, gateOpen)
  {
    var next := NextChunk(t, s0, sides, offset, len, silent, gateOpen, sidechainActive, capacity);
    forall c | 0 <= c < |t.inputs|
      ensures next.io[c][offset..end] == Played(t.outputs[c], len, gateOpen)
    {
      var played := Played(t.outputs[c], len, gateOpen);
      assert next.io[c] == Splice(t.io[c], offset, played);
      assert offset + |played| == end;
    }
  }

  /**
   * One chunk transfer of `len` samples at `offset` continues the stream:
   * the rings are fed the chunk, the output cursors advance by it when the
   * gate is open, and the bus chunk is the played or silenced output.
   */
  lemma StreamedStep(t: Streams, s0: Streams, sides: seq<seq<real>>, offset: nat, len: nat, end: nat, silent: nat,
                     gateOpen: bool, sidechainActive: bool, capacity: nat)
    requires ChunkAllowed(t, s0, sides, offset, len, silent, gateOpen, sidechainActive, capacity)
    requires end == offset + len
    ensures Streamed(NextChunk(t, s0, sides, offset, len, silent, gateOpen, sidechainActive, capacity),
                     s0, sides, end, silent, sidechainActive, capacity)
    ensures forall c :: 0 <= c < |t.inputs| ==>
      NextChunk(t, s0, sides, offset, len, silent, gateOpen, sidechainActive, capacity).io[c][offset..end]
        == Played(t.outputs[c], len, gateOpen)
  {
    StepPlaysChunk(t, s0, sides, offset, len, end, silent, gateOpen, sidechainActive, capacity);
    StepFeedsInputs(t, s0, sides, offset, len, end, silent, gateOpen, sidechainActive, capacity);
    StepFeedsSidechains(t, s0, sides, offset, len, end, silent, gateOpen, sidechainActive, capacity);
    StepPlaysOutputs(t, s0, sides, offset, len, end, silent, gateOpen, sidechainActive, capacity);
    StepWritesBus(t, s0, sides, offset, len, end, silent, gateOpen, sidechainActive, capacity);
  }

  /**
   * A chunk the driver may stream continues the stream up to `end`, keeps
   * every ring shaped, and keeps each bus channel at its length.
   */
  lemma ChunkKeepsStream(t: Streams, s0: Streams, sides: seq<seq<real>>, offset: nat, len: nat, end: nat, silent: nat,
                         gateOpen: bool, sidechainActive: bool, capacity: nat)
    requires ChunkAllowed(t, s0, sides, offset, len, silent, gateOpen, sidechainActive, capacity)
    requires end == offset + len
    ensures var next := NextChunk(t, s0, sides, offset, len, silent, gateOpen, sidechainActive, capacity);
      && Streamed(next, s0, sides, end, silent, sidechainActive, capacity)
      && next.Shaped(capacity) && |next.inputs| == |t.inputs| && |next.io| == |t.io|
      && (forall d :: 0 <= d < |t.io| ==> |next.io[d]| == |t.io[d]|)
  {
    StreamedStep(t, s0, sides, offset, len, end, silent, gateOpen, sidechainActive, capacity);
  }

  /** A window step that moves no output cursor leaves the stream as it was. */
  lemma StreamedOutputsRewritten(t: Streams, s0: Streams, sides: seq<seq<real>>, offset: nat, silent: nat,
                                 sidechainActive: bool, capacity: nat, outputs: seq<Ring>)
    requires Streamed(t, s0, sides, offset, silent, sidechainActive, capacity)
    requires SamePlaces(t.outputs, outputs)
    ensures Streamed(t.(outputs := outputs), s0, sides, offset, silent, sidechainActive, capacity)
  {
  }

  /** Rings fed or advanced by the same amount from cursors in lock step stay in lock step. */
  lemma StreamedKeepsLockStep(t: Streams, s0: Streams, sides: seq<seq<real>>, offset: nat, silent: nat,
                              sidechainActive: bool, capacity: nat)
    requires Streamed(t, s0, sides, offset, silent, sidechainActive, capacity)
    requires LockStep(s0.inputs) && LockStep(s0.outputs) && LockStep(s0.sidechains)
    ensures LockStep(t.inputs) && LockStep(t.outputs) && LockStep(t.sidechains)
  {
  }

  /** `rows` with every row from index `from` on replaced by silence of the same length. */
  function SilenceFrom(rows: seq<seq<real>>, from: nat): (r: seq<seq<real>>)
    ensures |r| == |rows|
    ensures forall c :: 0 <= c < |rows| ==> |r[c]| == |rows[c]|
    ensures forall c :: 0 <= c < |rows| && c < from ==> r[c] == rows[c]
    ensures forall c :: from <= c < |rows| ==> r[c] == Zeros(|rows[c]|)
  {
    seq(|rows|, c requires 0 <= c < |rows| => if c < from then rows[c] else Zeros(|rows[c]|))
  }

  /**
   * What `do_stft` does to the streams `s0` with a block of `numSamples`
   * samples: the channels past the input channels are silenced; then,
   * starting from the input cursor of channel 0, the block is streamed to
   * its end, with the silent prefix that the latency gate imposes given the
   * `windowsBefore` windows processed so far, and one window is processed
   * per loop chunk.
   */
  ghost predicate BlockStreamed(t: Streams, s0: Streams, sides: seq<seq<real>>, numSamples: nat, hop: nat,
                                windowsBefore: nat, windowsAfter: nat, overlap: nat,
                                sidechainActive: bool, capacity: nat)
  {
    && hop > 0 && 0 < |s0.inputs|
    && windowsAfter == windowsBefore + WindowsToProcess(numSamples, s0.inputs[0].pos, hop)
    && Streamed(t, s0.(io := SilenceFrom(s0.io, |s0.inputs|)), sides, numSamples,
                SilentPrefix(numSamples, s0.inputs[0].pos, hop, windowsBefore, overlap), sidechainActive, capacity)
  }

  /**
   * After a block every channel past the input channels is silent for the
   * whole block (src/processor.cpp:606-609); every input channel is silent
   * over the silent prefix (src/processor.cpp:649-650, 685-686); the input
   * ring has been fed the whole block and its cursor has moved by the block
   * length; and the output cursor has moved by what was played.
   */
  lemma BlockStreamedSilences(t: Streams, s0: Streams, sides: seq<seq<real>>, numSamples: nat, hop: nat,
                              windowsBefore: nat, windowsAfter: nat, overlap: nat,
                              sidechainActive: bool, capacity: nat)
    requires BlockStreamed(t, s0, sides, numSamples, hop, windowsBefore, windowsAfter, overlap, sidechainActive, capacity)
    requires forall c :: 0 <= c < |s0.io| ==> |s0.io[c]| == numSamples
    ensures forall c :: |s0.inputs| <= c < |t.io| ==> t.io[c] == Zeros(numSamples)
    ensures forall c :: 0 <= c < |s0.inputs| ==>
      var silent := SilentPrefix(numSamples, s0.inputs[0].pos, hop, windowsBefore, overlap);
      |t.io[c]| == numSamples && t.io[c][..silent] == Zeros(silent)
    ensures forall c :: 0 <= c < |s0.inputs| ==>
      && View(t.inputs[c]) == Feed(View(s0.inputs[c]), s0.io[c])
      && t.inputs[c].pos == (s0.inputs[c].pos + numSamples) % capacity
    ensures forall c :: 0 <= c < |s0.inputs| ==>
      t.outputs[c].pos
        == (s0.outputs[c].pos + (numSamples - SilentPrefix(numSamples, s0.inputs[0].pos, hop, windowsBefore, overlap))) % capacity
  {
    var silent := SilentPrefix(numSamples, s0.inputs[0].pos, hop, windowsBefore, overlap);
    var cleared := SilenceFrom(s0.io, |s0.inputs|);
    assert Min(numSamples, silent) == silent;
    forall c | 0 <= c < |s0.inputs|
      ensures View(t.inputs[c]) == Feed(View(s0.inputs[c]), s0.io[c])
    {
      assert cleared[c][..numSamples] == s0.io[c];
    }
    forall c | |s0.inputs| <= c < |t.io|
      ensures t.io[c] == Zeros(numSamples)
    {
      assert t.io[c] == cleared[c];
    }
  }
}
