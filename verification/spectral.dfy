/**
 * The per-bin arithmetic of the spectral window step: the gain each
 * compressor applies to its frequency bin, and the sidechain threshold, which
 * is the mean over channels of a bin's magnitude.
 *
 * The transform, the magnitude of a complex bin and the compressor's own
 * envelope follower are library code; they enter as the functions of a `Dsp`
 * value.
 */
module Spectral {

  /** One frequency bin, real and imaginary part. */
  datatype Complex = Complex(re: real, im: real)

  /** `bin *= multiplier`: both parts scaled by a real factor. */
  function Scale(c: Complex, m: real): Complex
  {
    Complex(c.re * m, c.im * m)
  }

  /**
   * The settings of one bin's compressor that the processor sets; the
   * envelope follower behind `processSample` belongs to the library.
   */
  datatype Compressor = Compressor(
    threshold: real,
    ratio: real,
    attackMs: real,
    releaseMs: real,
    sampleRate: real)

  /** A compressor as `resize` default-constructs it. */
  const DefaultCompressor := Compressor(0.0, 1.0, 0.0, 0.0, 0.0)

  /**
   * The library functions the window step calls: the real-only forward and
   * inverse transforms, `std::abs` of a bin, and a compressor's
   * `processSample(channel, magnitude)`.
   */
  datatype Dsp = Dsp(
    forward: seq<real> -> seq<Complex>,
    inverse: seq<Complex> -> seq<real>,
    magnitude: Complex -> real,
    process: (Compressor, nat, real) -> real)

  /** The transforms keep the length of what they are given. */
  ghost predicate LengthPreserving(dsp: Dsp)
  {
    && (forall x: seq<real> :: |dsp.forward(x)| == |x|)
    && (forall b: seq<Complex> :: |dsp.inverse(b)| == |b|)
  }

  /**
   * `compression_multiplier` (src/processor.cpp:399-401): the factor that
   * turns the bin's magnitude into the compressed magnitude, and 1 (no
   * change, no division) for a bin of magnitude zero.
   */
  function Multiplier(magnitude: real, compressed: real): (m: real)
    ensures magnitude != 0.0 ==> m * magnitude == compressed
    ensures magnitude == 0.0 ==> m == 1.0
  {
    if magnitude != 0.0 then compressed / magnitude else 1.0
  }

  /** The multiplier compressor `c` gives bin `bin` of channel `channel`. */
  function BinGain(dsp: Dsp, c: Compressor, channel: nat, bin: Complex): (g: real)
    ensures dsp.magnitude(bin) != 0.0 ==> g * dsp.magnitude(bin) == dsp.process(c, channel, dsp.magnitude(bin))
    ensures dsp.magnitude(bin) == 0.0 ==> g == 1.0
  {
    var magnitude := dsp.magnitude(bin);
    Multiplier(magnitude, dsp.process(c, channel, magnitude))
  }

  /** `magnitude` scales with a non-negative factor, as `std::abs` does. */
  ghost predicate Homogeneous(magnitude: Complex -> real)
  {
    forall c: Complex, m: real :: m >= 0.0 ==> magnitude(Scale(c, m)) == m * magnitude(c)
  }

  /**
   * What the gain rule achieves: a bin of non-zero magnitude leaves with
   * exactly the magnitude its compressor returned, and a bin of magnitude
   * zero is left as it was.
   */
  lemma GainYieldsCompressedMagnitude(dsp: Dsp, c: Compressor, channel: nat, bin: Complex)
    requires Homogeneous(dsp.magnitude)
    requires dsp.magnitude(bin) >= 0.0 && dsp.process(c, channel, dsp.magnitude(bin)) >= 0.0
    ensures dsp.magnitude(bin) != 0.0 ==>
      dsp.magnitude(Scale(bin, BinGain(dsp, c, channel, bin))) == dsp.process(c, channel, dsp.magnitude(bin))
    ensures dsp.magnitude(bin) == 0.0 ==> Scale(bin, BinGain(dsp, c, channel, bin)) == bin
  {
    var mag := dsp.magnitude(bin);
    var g := BinGain(dsp, c, channel, bin);
    if mag != 0.0 {
      assert g * mag == dsp.process(c, channel, mag);
      assert g >= 0.0;
      assert dsp.magnitude(Scale(bin, g)) == g * mag;
    }
  }

  /**
   * The spectrum after the per-bin loop: bin `b` from 1 to the number of
   * compressors scaled by the gain of compressor `b - 1`, every other bin as
   * it was.
   */
  function CompressedSpectrum(bins: seq<Complex>, compressors: seq<Compressor>, channel: nat, dsp: Dsp)
    : (r: seq<Complex>)
    requires |compressors| < |bins|
    ensures |r| == |bins| && r[0] == bins[0]
    ensures forall b :: |compressors| < b < |bins| ==> r[b] == bins[b]
  {
    seq(|bins|, b requires 0 <= b < |bins| =>
      if 1 <= b <= |compressors| then Scale(bins[b], BinGain(dsp, compressors[b - 1], channel, bins[b])) else bins[b])
  }

  /**
   * The per-bin loop of the window step (src/processor.cpp:382-406):
   * compressor `i` scales bin `i + 1` by its gain. Bin 0 (DC) and every bin
   * past the last compressor, the mirrored upper half included, are left
   * untouched.
   */
  method ApplyBinGains(bins: seq<Complex>, compressors: seq<Compressor>, channel: nat, dsp: Dsp)
    returns (out: seq<Complex>)
    requires |compressors| < |bins|
    ensures |out| == |bins|
    ensures out[0] == bins[0]
    ensures forall i :: 0 <= i < |compressors| ==>
      out[i + 1] == Scale(bins[i + 1], BinGain(dsp, compressors[i], channel, bins[i + 1]))
    ensures forall b :: |compressors| < b < |bins| ==> out[b] == bins[b]
    ensures out == CompressedSpectrum(bins, compressors, channel, dsp)
  {
    out := bins;
    var i := 0;
    while i < |compressors|
      invariant 0 <= i <= |compressors|
      invariant |out| == |bins|
      invariant forall k :: 0 <= k < i ==>
        out[k + 1] == Scale(bins[k + 1], BinGain(dsp, compressors[k], channel, bins[k + 1]))
      invariant forall b :: b == 0 || i < b < |bins| ==> out[b] == bins[b]
    {
      var binIdx := i + 1;
      var magnitude := dsp.magnitude(out[binIdx]);
      var compressed := dsp.process(compressors[i], channel, magnitude);
      out := out[binIdx := Scale(out[binIdx], Multiplier(magnitude, compressed))];
      i := i + 1;
    }
  }

  /** `multiplyWithWindowingTable`: sample `i` scaled by entry `i` of the window table. */
  function Windowed(x: seq<real>, table: seq<real>): (y: seq<real>)
    requires |x| == |table|
    ensures |y| == |x|
    ensures forall i :: 0 <= i < |x| ==> y[i] == x[i] * table[i]
  {
    seq(|x|, i requires 0 <= i < |x| => x[i] * table[i])
  }

  /**
   * The frame the window step adds into a channel's output ring
   * (src/processor.cpp:359-418): the `recent` input samples windowed,
   * transformed, compressed bin by bin, transformed back and windowed again.
   */
  function SynthesisFrame(dsp: Dsp, table: seq<real>, recent: seq<real>, compressors: seq<Compressor>, channel: nat)
    : (frame: seq<real>)
    requires LengthPreserving(dsp) && |recent| == |table| && |compressors| < |table|
    ensures |frame| == |table|
  {
    var spectrum := dsp.forward(Windowed(recent, table));
    Windowed(dsp.inverse(CompressedSpectrum(spectrum, compressors, channel, dsp)), table)
  }

  /** The magnitude of every bin of the spectrum of `recent`. */
  function BinMagnitudes(dsp: Dsp, recent: seq<real>): (m: seq<real>)
    requires LengthPreserving(dsp)
    ensures |m| == |recent|
    ensures forall b :: 0 <= b < |recent| ==> m[b] == dsp.magnitude(dsp.forward(recent)[b])
  {
    var spectrum := dsp.forward(recent);
    seq(|spectrum|, b requires 0 <= b < |spectrum| => dsp.magnitude(spectrum[b]))
  }

  // ---------------------------------------------------------------------------
  // Sidechain thresholds
  // ---------------------------------------------------------------------------

  /** The sum over the first `k` channels of bin `i`'s magnitude. */
  function ColumnSum(magnitudes: seq<seq<real>>, i: nat, k: nat): real
    requires k <= |magnitudes|
    requires forall c :: 0 <= c < |magnitudes| ==> i < |magnitudes[c]|
  {
    if k == 0 then 0.0 else ColumnSum(magnitudes, i, k - 1) + magnitudes[k - 1][i]
  }

  /** The arithmetic mean over all channels of bin `i`'s magnitude. */
  function ChannelMean(magnitudes: seq<seq<real>>, i: nat): (m: real)
    requires |magnitudes| > 0
    requires forall c :: 0 <= c < |magnitudes| ==> i < |magnitudes[c]|
    ensures m * (|magnitudes| as real) == ColumnSum(magnitudes, i, |magnitudes|)
  {
    ColumnSum(magnitudes, i, |magnitudes|) / (|magnitudes| as real)
  }

  lemma {:induction false} ColumnSumOfConstant(magnitudes: seq<seq<real>>, i: nat, k: nat, level: real)
    requires k <= |magnitudes|
    requires forall c :: 0 <= c < |magnitudes| ==> i < |magnitudes[c]| && magnitudes[c][i] == level
    ensures ColumnSum(magnitudes, i, k) == (k as real) * level
  {
    if k > 0 {
      ColumnSumOfConstant(magnitudes, i, k - 1, level);
    }
  }

  /**
   * The threshold does not depend on the channel count: when every channel
   * shows bin `i` at the same magnitude, the mean is that magnitude.
   */
  lemma MeanOfEqualChannels(magnitudes: seq<seq<real>>, i: nat, level: real)
    requires |magnitudes| > 0
    requires forall c :: 0 <= c < |magnitudes| ==> i < |magnitudes[c]| && magnitudes[c][i] == level
    ensures ChannelMean(magnitudes, i) == level
  {
    ColumnSumOfConstant(magnitudes, i, |magnitudes|, level);
  }

  /** The mean lies between the smallest and the largest channel's magnitude. */
  lemma {:induction false} ColumnSumBounds(magnitudes: seq<seq<real>>, i: nat, k: nat, lo: real, hi: real)
    requires k <= |magnitudes|
    requires forall c :: 0 <= c < |magnitudes| ==> i < |magnitudes[c]| && lo <= magnitudes[c][i] <= hi
    ensures (k as real) * lo <= ColumnSum(magnitudes, i, k) <= (k as real) * hi
  {
    if k > 0 {
      ColumnSumBounds(magnitudes, i, k - 1, lo, hi);
    }
  }

  /** A sum of at least `n` times `lo`, divided by a positive `n`, is at least `lo`. */
  lemma QuotientAtLeast(s: real, n: real, lo: real)
    requires n > 0.0 && n * lo <= s
    ensures lo <= s / n
  {
    var q := s / n;
    assert q * n == s;
    assert (q - lo) * n == s - n * lo;
  }

  /** A sum of at most `n` times `hi`, divided by a positive `n`, is at most `hi`. */
  lemma QuotientAtMost(s: real, n: real, hi: real)
    requires n > 0.0 && s <= n * hi
    ensures s / n <= hi
  {
    var q := s / n;
    assert q * n == s;
    assert (hi - q) * n == n * hi - s;
  }

  lemma MeanWithinChannelRange(magnitudes: seq<seq<real>>, i: nat, lo: real, hi: real)
    requires |magnitudes| > 0
    requires forall c :: 0 <= c < |magnitudes| ==> i < |magnitudes[c]| && lo <= magnitudes[c][i] <= hi
    ensures lo <= ChannelMean(magnitudes, i) <= hi
  {
    ColumnSumBounds(magnitudes, i, |magnitudes|, lo, hi);
    var n := |magnitudes| as real;
    var s := ColumnSum(magnitudes, i, |magnitudes|);
    QuotientAtLeast(s, n, lo);
    QuotientAtMost(s, n, hi);
  }
}
