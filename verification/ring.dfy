/**
 * The per-channel circular sample buffer the STFT driver streams through.
 *
 * A ring is a fixed backing store of `capacity` samples and a cursor `pos`.
 * Its chronological view, `View(r)`, starts at the cursor: for the input and
 * sidechain rings this is "oldest sample first" (the cursor is where the next
 * sample will be written), for the output ring it is "next sample to be
 * played first". Every operation below writes the backing store by physical
 * index modulo the capacity; its contract states what that does to the view.
 */
module Ring {

  import opened ModArith

  /** Euclidean distance from the cursor `pos` forward to physical slot `j`. */
  function Dist(pos: nat, j: nat, cap: nat): (d: nat)
    requires cap > 0
    ensures d < cap
  {
    (j - pos) % cap
  }

  /** Slot `(pos + i) % cap` lies `i % cap` steps after the cursor. */
  lemma DistOfOffset(pos: nat, i: nat, cap: nat)
    requires cap > 0 && pos < cap
    ensures Dist(pos, (pos + i) % cap, cap) == i % cap
  {
    var s := (pos + i) % cap;
    var q := (pos + i) / cap;
    ModUnique(pos + i, cap, q, s);
    var q2 := i / cap;
    ModUnique(i, cap, q2, i % cap);
    ModUnique(s - pos, cap, q2 - q, i % cap);
  }

  /** `n` samples of silence. */
  function Zeros(n: nat): (z: seq<real>)
    ensures |z| == n && forall i :: 0 <= i < n ==> z[i] == 0.0
  {
    seq(n, _ => 0.0)
  }

  /** A ring buffer: a backing store whose length is the capacity, and a cursor. */
  datatype Ring = Ring(data: seq<real>, pos: nat) {
    function Capacity(): nat { |data| }

    predicate Valid() { 0 < |data| && pos < |data| }
  }

  /** The contents in the order they were written, starting at the cursor. */
  function View(r: Ring): (v: seq<real>)
    requires r.Valid()
    ensures |v| == r.Capacity()
  {
    seq(|r.data|, i requires 0 <= i < |r.data| => r.data[(r.pos + i) % |r.data|])
  }

  /** The backing store with `vals` written into the slots from the cursor on. */
  function Overlay(data: seq<real>, pos: nat, vals: seq<real>): (d: seq<real>)
    requires pos < |data| && |vals| <= |data|
    ensures |d| == |data|
  {
    seq(|data|, j requires 0 <= j < |data| =>
      if Dist(pos, j, |data|) < |vals| then vals[Dist(pos, j, |data|)] else data[j])
  }

  /** Writing `vals` at the cursor replaces the first `|vals|` samples of the view. */
  lemma OverlayView(r: Ring, vals: seq<real>)
    requires r.Valid() && |vals| <= r.Capacity()
    ensures View(Ring(Overlay(r.data, r.pos, vals), r.pos)) == vals + View(r)[|vals|..]
  {
    var cap := |r.data|;
    var r' := Ring(Overlay(r.data, r.pos, vals), r.pos);
    forall i | 0 <= i < cap
      ensures View(r')[i] == (vals + View(r)[|vals|..])[i]
    {
      DistOfOffset(r.pos, i, cap);
      ModUnique(i, cap, 0, i);
    }
  }

  /** Moving the cursor forward by `n` rotates the view left by `n`. */
  lemma AdvanceView(r: Ring, n: nat)
    requires r.Valid() && n <= r.Capacity()
    ensures View(Ring(r.data, (r.pos + n) % r.Capacity())) == View(r)[n..] + View(r)[..n]
  {
    var cap := |r.data|;
    var v, v' := View(r), View(Ring(r.data, (r.pos + n) % cap));
    forall i | 0 <= i < cap
      ensures v'[i] == (v[n..] + v[..n])[i]
    {
      var k := r.pos + n + i;
      AdvancedSample(r, n, i);
      if n + i < cap {
        assert v[n + i] == r.data[k % cap];
      } else {
        WrappedSample(r, n + i - cap, k);
      }
    }
  }

  /** Sample `i` of the view of the backing store `data` read from slot `q` sits in slot `(q + i) % cap`. */
  lemma SampleAt(data: seq<real>, q: nat, i: nat)
    requires q < |data| && i < |data|
    ensures View(Ring(data, q))[i] == data[(q + i) % |data|]
  {
  }

  /** Sample `i` of the view after the cursor moves by `n` sits in slot `(pos + n + i) % cap`. */
  lemma AdvancedSample(r: Ring, n: nat, i: nat)
    requires r.Valid() && i < r.Capacity()
    ensures View(Ring(r.data, (r.pos + n) % r.Capacity()))[i] == r.data[(r.pos + n + i) % r.Capacity()]
  {
    OffsetOfOffset(r.pos, n, i, |r.data|);
    SampleAt(r.data, (r.pos + n) % |r.data|, i);
  }

  /** Sample `j` of the view sits in slot `(pos + j + cap) % cap`. */
  lemma WrappedSample(r: Ring, j: nat, k: nat)
    requires r.Valid() && j < r.Capacity() && k == r.pos + j + r.Capacity()
    ensures View(r)[j] == r.data[k % r.Capacity()]
  {
    ModMinusCap(k, |r.data|);
  }

  // ---------------------------------------------------------------------------
  // The operations the driver calls. `ring.h` itself is not part of this model:
  // these are the contracts its call sites in the processor rely on.
  // ---------------------------------------------------------------------------

  /** A ring of the given capacity holding silence, cursor at slot 0 (`resize`). */
  function Create(capacity: nat): (r: Ring)
    requires capacity > 0
    ensures r.Valid() && r.Capacity() == capacity && r.pos == 0
    ensures View(r) == Zeros(capacity)
  {
    Ring(Zeros(capacity), 0)
  }

  /**
   * `read_n_from(src, n)`: write the first `n` samples of `src` at the cursor
   * and advance the cursor past them.
   */
  function ReadNFrom(r: Ring, src: seq<real>, n: nat): (r': Ring)
    requires r.Valid() && n <= |src| && n <= r.Capacity()
    ensures r'.Valid() && r'.Capacity() == r.Capacity()
    ensures r'.pos == (r.pos + n) % r.Capacity()
  {
    Ring(Overlay(r.data, r.pos, src[..n]), (r.pos + n) % r.Capacity())
  }

  /** `read_n_from` appends: the `n` oldest samples fall out of the view and `src[..n]` becomes the newest. */
  lemma ReadNFromAppends(r: Ring, src: seq<real>, n: nat)
    requires r.Valid() && n <= |src| && n <= r.Capacity()
    ensures View(ReadNFrom(r, src, n)) == View(r)[n..] + src[..n]
  {
    var written := Ring(Overlay(r.data, r.pos, src[..n]), r.pos);
    OverlayView(r, src[..n]);
    AdvanceView(written, n);
    assert View(written)[n..] + View(written)[..n] == View(r)[n..] + src[..n];
  }

  /**
   * `read_n_from_in_place(src, n)`: overwrite the `n` samples at the cursor
   * with `src` without moving the cursor.
   */
  function ReadNFromInPlace(r: Ring, src: seq<real>, n: nat): (r': Ring)
    requires r.Valid() && n <= |src| && n <= r.Capacity()
    ensures r'.Valid() && r'.Capacity() == r.Capacity() && r'.pos == r.pos
  {
    Ring(Overlay(r.data, r.pos, src[..n]), r.pos)
  }

  /** `read_n_from_in_place` replaces the `n` samples at the head of the view. */
  lemma ReadNFromInPlaceOverwrites(r: Ring, src: seq<real>, n: nat)
    requires r.Valid() && n <= |src| && n <= r.Capacity()
    ensures View(ReadNFromInPlace(r, src, n)) == src[..n] + View(r)[n..]
  {
    OverlayView(r, src[..n]);
  }

  /**
   * `add_n_from_in_place(src, n, gain)`: overlap-add `gain * src[i]` onto the
   * `n` samples at the cursor without moving the cursor.
   */
  function AddNFromInPlace(r: Ring, src: seq<real>, n: nat, gain: real): (r': Ring)
    requires r.Valid() && n <= |src| && n <= r.Capacity()
    ensures r'.Valid() && r'.Capacity() == r.Capacity() && r'.pos == r.pos
  {
    var cap := |r.data|;
    var sums := seq(n, i requires 0 <= i < n => r.data[(r.pos + i) % cap] + gain * src[i]);
    Ring(Overlay(r.data, r.pos, sums), r.pos)
  }

  /** The samples `v` with `gain * src[i]` added to each of the first `n`. */
  function AddScaled(v: seq<real>, src: seq<real>, n: nat, gain: real): (w: seq<real>)
    requires n <= |v| && n <= |src|
    ensures |w| == |v|
  {
    seq(|v|, i requires 0 <= i < |v| => if i < n then v[i] + gain * src[i] else v[i])
  }

  /**
   * `add_n_from_in_place` adds the scaled source onto the `n` samples at the
   * head of the view and keeps the rest.
   */
  lemma AddNFromInPlaceView(r: Ring, src: seq<real>, n: nat, gain: real)
    requires r.Valid() && n <= |src| && n <= r.Capacity()
    ensures View(AddNFromInPlace(r, src, n, gain)) == AddScaled(View(r), src, n, gain)
  {
    var cap := |r.data|;
    var sums := seq(n, i requires 0 <= i < n => r.data[(r.pos + i) % cap] + gain * src[i]);
    OverlayView(r, sums);
    var v := View(r);
    forall i | 0 <= i < cap
      ensures AddScaled(v, src, n, gain)[i] == (sums + v[n..])[i]
    {
    }
  }

  /** `copy_last_n_to(dst, n)`: the `n` newest samples, oldest first; the ring is unchanged. */
  function CopyLastNTo(r: Ring, n: nat): (dst: seq<real>)
    requires r.Valid() && n <= r.Capacity()
    ensures dst == View(r)[r.Capacity() - n..]
  {
    var cap := |r.data|;
    var dst := seq(n, i requires 0 <= i < n => r.data[(r.pos + (cap - n + i)) % cap]);
    assert forall i :: 0 <= i < n ==> dst[i] == View(r)[cap - n + i];
    dst
  }

  /**
   * `copy_n_to(dst, n, clear)`: play the `n` samples at the cursor and advance
   * the cursor past them; with `clear` they are zeroed so that the next
   * overlap-add starts from silence. Returns the samples and the new ring.
   */
  function CopyNTo(r: Ring, n: nat, clear: bool): (res: (seq<real>, Ring))
    requires r.Valid() && n <= r.Capacity()
    ensures res.0 == View(r)[..n]
    ensures res.1.Valid() && res.1.Capacity() == r.Capacity()
    ensures res.1.pos == (r.pos + n) % r.Capacity()
  {
    var cap := |r.data|;
    var dst := seq(n, i requires 0 <= i < n => r.data[(r.pos + i) % cap]);
    var data := if clear then Overlay(r.data, r.pos, Zeros(n)) else r.data;
    (dst, Ring(data, (r.pos + n) % cap))
  }

  /**
   * After `copy_n_to` the played samples are at the tail of the view, as
   * silence when they were cleared.
   */
  lemma CopyNToRotates(r: Ring, n: nat, clear: bool)
    requires r.Valid() && n <= r.Capacity()
    ensures View(CopyNTo(r, n, clear).1) == View(r)[n..] + (if clear then Zeros(n) else View(r)[..n])
  {
    var cap := |r.data|;
    var cleared := if clear then Ring(Overlay(r.data, r.pos, Zeros(n)), r.pos) else r;
    OverlayView(r, Zeros(n));
    AdvanceView(cleared, n);
    assert View(cleared)[..n] == (if clear then Zeros(n) else View(r)[..n]);
    assert View(cleared)[n..] == View(r)[n..];
  }

  /**
   * The window a ring holds after the samples `s` have been streamed into a
   * ring whose view was `v`: the newest `|v|` samples of `v + s`.
   */
  function Feed(v: seq<real>, s: seq<real>): (w: seq<real>)
    ensures |w| == |v|
    ensures |s| <= |v| ==> w == v[|s|..] + s
    ensures |s| >= |v| ==> w == s[|s| - |v|..]
  {
    (v + s)[|s|..]
  }

  /** Streaming `a` and then `b` leaves the ring as streaming `a + b` at once. */
  lemma FeedFeed(v: seq<real>, a: seq<real>, b: seq<real>)
    ensures Feed(Feed(v, a), b) == Feed(v, a + b)
  {
    var lhs, rhs := Feed(Feed(v, a), b), Feed(v, a + b);
    forall i | 0 <= i < |v|
      ensures lhs[i] == rhs[i]
    {
      assert lhs[i] == (Feed(v, a) + b)[|b| + i];
      assert rhs[i] == (v + a + b)[|a| + |b| + i];
      if |b| + i < |v| {
        assert (Feed(v, a) + b)[|b| + i] == (v + a)[|a| + |b| + i];
      }
    }
  }
}
