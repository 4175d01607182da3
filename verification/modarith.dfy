/** Facts about Euclidean division and remainder used by the ring and the driver. */
module ModArith {

  lemma MulAtLeast(d: int, c: int)
    requires d >= 1 && c > 0
    ensures d * c >= c
  {
    var k := d - 1;
    assert d * c == k * c + c;
    assert k * c >= 0;
  }

  /** A quotient by a positive divisor is no larger than the dividend. */
  lemma DivAtMost(a: nat, b: nat)
    requires b > 0
    ensures a / b <= a
  {
    if a / b >= 1 {
      MulAtLeast(b, a / b);
      assert a == (a / b) * b + a % b;
    }
  }

  /** Euclidean division is determined by any quotient/remainder pair. */
  lemma ModUnique(x: int, c: int, q: int, r: int)
    requires c > 0 && 0 <= r < c && x == q * c + r
    ensures x % c == r && x / c == q
  {
    var q', r' := x / c, x % c;
    assert (q - q') * c == r' - r;
    if q > q' {
      MulAtLeast(q - q', c);
    } else if q < q' {
      MulAtLeast(q' - q, c);
    }
  }

  lemma ModMinusCap(x: int, cap: int)
    requires cap > 0 && x >= cap
    ensures x % cap == (x - cap) % cap
  {
    ModUnique(x - cap, cap, (x - cap) / cap, (x - cap) % cap);
    ModUnique(x, cap, (x - cap) / cap + 1, (x - cap) % cap);
  }

  /** Adding `n` then `i` modulo `cap` is adding `n + i` modulo `cap`. */
  lemma OffsetOfOffset(pos: nat, n: nat, i: nat, cap: nat)
    requires cap > 0
    ensures ((pos + n) % cap + i) % cap == (pos + n + i) % cap
  {
    var q := (pos + n) / cap;
    var r := (pos + n) % cap;
    ModUnique(pos + n, cap, q, r);
    var q2 := (r + i) / cap;
    ModUnique(r + i, cap, q2, (r + i) % cap);
    ModUnique(pos + n + i, cap, q + q2, (r + i) % cap);
  }
}
