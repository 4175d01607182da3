/**
 * The per-chunk data movement of the STFT driver, on values: what one chunk
 * transfer does to the input, output and sidechain rings and to the main
 * bus of the host buffer.
 */
module Transfer {

  import opened Ring

  /** `row` with `vals` written from sample `from` on. */
  function Splice(row: seq<real>, from: nat, vals: seq<real>): (r: seq<real>)
    requires from + |vals| <= |row|
    ensures |r| == |row| && r[from..from + |vals|] == vals
    ensures r[..from] == row[..from] && r[from + |vals|..] == row[from + |vals|..]
  {
    row[..from] + vals + row[from + |vals|..]
  }

  /** Samples `from .. from + n` of each of the first `rows` channels. */
  function Chunks(channels: seq<seq<real>>, rows: nat, from: nat, n: nat): (s: seq<seq<real>>)
    requires rows <= |channels| && forall d :: 0 <= d < rows ==> from + n <= |channels[d]|
    ensures |s| == rows && forall d :: 0 <= d < rows ==> s[d] == channels[d][from..from + n]
  {
    seq(rows, d requires 0 <= d < rows => channels[d][from..from + n])
  }

  /** `channels` rings, each valid and `capacity` samples long. */
  ghost predicate AllSized(rings: seq<Ring>, channels: nat, capacity: nat)
  {
    |rings| == channels && forall c :: 0 <= c < channels ==> rings[c].Valid() && rings[c].Capacity() == capacity
  }

  /** Every ring has its cursor where the first one has it. */
  ghost predicate LockStep(rings: seq<Ring>)
  {
    forall c :: 0 <= c < |rings| ==> rings[c].pos == rings[0].pos
  }

  /**
   * The state a chunk transfer touches: one input, output and sidechain ring
   * per input channel, and the main bus, one sample sequence per output
   * channel.
   */
  datatype Streams = Streams(inputs: seq<Ring>, outputs: seq<Ring>, sidechains: seq<Ring>, io: seq<seq<real>>)
  {
    /** One ring of each kind, `capacity` samples long, per input channel; no more input than bus channels. */
    ghost predicate Shaped(capacity: nat)
    {
      && |inputs| <= |io|
      && AllSized(inputs, |inputs|, capacity)
      && AllSized(outputs, |inputs|, capacity)
      && AllSized(sidechains, |inputs|, capacity)
    }

    /** Every bus channel holds the samples `offset .. offset + n`. */
    ghost predicate Holds(offset: nat, n: nat)
    {
      forall d :: 0 <= d < |io| ==> offset + n <= |io[d]|
    }
  }

  /**
   * What the host buffer receives for `n` samples of a channel: the samples
   * the output ring plays while the latency gate is open, silence while it
   * is closed.
   */
  function Played(output: Ring, n: nat, gateOpen: bool): (s: seq<real>)
    requires output.Valid() && n <= output.Capacity()
    ensures |s| == n
    ensures gateOpen ==> s == View(output)[..n]
    ensures !gateOpen ==> s == Zeros(n)
  {
    if gateOpen then CopyNTo(output, n, true).0 else Zeros(n)
  }

  /**
   * The chunk transfer of channel `c` (src/processor.cpp:642-656, 676-692):
   * read `n` input samples at `offset` into the input ring; play the output
   * ring into the bus and clear it behind the cursor when the gate is open,
   * or silence the bus; read the sidechain samples `side` into the sidechain
   * ring when sidechaining is active.
   */
  function ChannelTransfer(s: Streams, side: seq<real>, c: nat, offset: nat, n: nat,
                           gateOpen: bool, sidechainActive: bool, capacity: nat): (t: Streams)
    requires s.Shaped(capacity) && s.Holds(offset, n)
    requires c < |s.inputs| && n <= capacity && n <= |side|
    ensures t.Shaped(capacity) && |t.inputs| == |s.inputs| && |t.io| == |s.io|
    ensures forall d :: 0 <= d < |s.io| ==> |t.io[d]| == |s.io[d]|
  {
    Streams(
      s.inputs[c := ReadNFrom(s.inputs[c], s.io[c][offset..offset + n], n)],
      if gateOpen then s.outputs[c := CopyNTo(s.outputs[c], n, true).1] else s.outputs,
      if sidechainActive then s.sidechains[c := ReadNFrom(s.sidechains[c], side, n)] else s.sidechains,
      s.io[c := Splice(s.io[c], offset, Played(s.outputs[c], n, gateOpen))])
  }

  /** The sidechain samples of every input channel fill a chunk of `n`. */
  ghost predicate SidesFit(s: Streams, sides: seq<seq<real>>, n: nat)
  {
    |sides| == |s.inputs| && forall d :: 0 <= d < |sides| ==> n <= |sides[d]|
  }

  /**
   * The chunk transfer of the channels below `upto` (src/processor.cpp:642,
   * 676), channel by channel: each has its own input chunk read into its
   * input ring, its output ring played into its bus chunk and cleared (gate
   * open) or its bus chunk silenced (gate closed), and its sidechain chunk
   * read into its sidechain ring (sidechaining active); every other ring and
   * bus channel is unchanged.
   */
  function ChunkTransfer(s: Streams, sides: seq<seq<real>>, upto: nat, offset: nat, n: nat,
                         gateOpen: bool, sidechainActive: bool, capacity: nat): (t: Streams)
    requires s.Shaped(capacity) && s.Holds(offset, n) && SidesFit(s, sides, n)
    requires upto <= |s.inputs| && n <= capacity
    ensures t.Shaped(capacity) && |t.inputs| == |s.inputs| && |t.io| == |s.io|
    ensures forall d :: 0 <= d < |s.io| ==> |t.io[d]| == |s.io[d]|
  {
    Streams(
      seq(|s.inputs|, d requires 0 <= d < |s.inputs| =>
        if d < upto then ReadNFrom(s.inputs[d], s.io[d][offset..offset + n], n) else s.inputs[d]),
      seq(|s.inputs|, d requires 0 <= d < |s.inputs| =>
        if d < upto && gateOpen then CopyNTo(s.outputs[d], n, true).1 else s.outputs[d]),
      seq(|s.inputs|, d requires 0 <= d < |s.inputs| =>
        if d < upto && sidechainActive then ReadNFrom(s.sidechains[d], sides[d], n) else s.sidechains[d]),
      seq(|s.io|, d requires 0 <= d < |s.io| =>
        if d < upto then Splice(s.io[d], offset, Played(s.outputs[d], n, gateOpen)) else s.io[d]))
  }

  /**
   * Transferring channel `upto` after the channels below it gives the
   * transfer of the channels up to and including it: the channels can be
   * handled one at a time, in order, because each channel's transfer reads
   * and writes only that channel.
   */
  lemma ChunkTransferStep(s: Streams, sides: seq<seq<real>>, upto: nat, offset: nat, n: nat,
                          gateOpen: bool, sidechainActive: bool, capacity: nat)
    requires s.Shaped(capacity) && s.Holds(offset, n) && SidesFit(s, sides, n)
    requires upto < |s.inputs| && n <= capacity
    ensures ChannelTransfer(ChunkTransfer(s, sides, upto, offset, n, gateOpen, sidechainActive, capacity),
                            sides[upto], upto, offset, n, gateOpen, sidechainActive, capacity)
         == ChunkTransfer(s, sides, upto + 1, offset, n, gateOpen, sidechainActive, capacity)
  {
    var before := ChunkTransfer(s, sides, upto, offset, n, gateOpen, sidechainActive, capacity);
    var lhs := ChannelTransfer(before, sides[upto], upto, offset, n, gateOpen, sidechainActive, capacity);
    var rhs := ChunkTransfer(s, sides, upto + 1, offset, n, gateOpen, sidechainActive, capacity);
    assert before.io[upto] == s.io[upto] && before.outputs[upto] == s.outputs[upto];
    assert lhs.inputs == rhs.inputs;
    assert lhs.outputs == rhs.outputs;
    assert lhs.sidechains == rhs.sidechains;
    assert lhs.io == rhs.io;
  }

  /**
   * What a chunk transfer does to channel `d`: a transferred channel has its
   * input chunk appended to its input ring, its output ring played onto the
   * chunk's slice of the bus and cleared behind it (gate open) or the slice
   * silenced (gate closed), and its sidechain chunk appended to its sidechain
   * ring (sidechaining active); a channel at or past `upto` is untouched.
   */
  lemma ChunkTransferChannel(s: Streams, sides: seq<seq<real>>, upto: nat, offset: nat, n: nat,
                             gateOpen: bool, sidechainActive: bool, capacity: nat, d: nat)
    requires s.Shaped(capacity) && s.Holds(offset, n) && SidesFit(s, sides, n)
    requires upto <= |s.inputs| && n <= capacity && d < |s.inputs|
    ensures var t := ChunkTransfer(s, sides, upto, offset, n, gateOpen, sidechainActive, capacity);
      d < upto ==>
        && View(t.inputs[d]) == View(s.inputs[d])[n..] + s.io[d][offset..offset + n]
        && t.io[d][..offset] == s.io[d][..offset]
        && t.io[d][offset..offset + n] == Played(s.outputs[d], n, gateOpen)
        && t.io[d][offset + n..] == s.io[d][offset + n..]
        && (gateOpen ==> View(t.outputs[d]) == View(s.outputs[d])[n..] + Zeros(n))
        && (!gateOpen ==> t.outputs[d] == s.outputs[d])
        && (sidechainActive ==> View(t.sidechains[d]) == View(s.sidechains[d])[n..] + sides[d][..n])
        && (!sidechainActive ==> t.sidechains[d] == s.sidechains[d])
    ensures var t := ChunkTransfer(s, sides, upto, offset, n, gateOpen, sidechainActive, capacity);
      upto <= d ==>
        t.inputs[d] == s.inputs[d] && t.outputs[d] == s.outputs[d] && t.sidechains[d] == s.sidechains[d]
        && t.io[d] == s.io[d]
  {
    if d < upto {
      var chunk := s.io[d][offset..offset + n];
      ReadNFromAppends(s.inputs[d], chunk, n);
      assert chunk[..n] == chunk;
      CopyNToRotates(s.outputs[d], n, true);
      ReadNFromAppends(s.sidechains[d], sides[d], n);
    }
  }
}
