/** Division with remainder, for proofs about shifts, masks and intervals. */
module Division {
  /** Quotient and remainder are pinned down by what they have to satisfy. */
  lemma Divide(y: int, d: int, k: int, r: int)
    requires d > 0 && y == d * k + r && 0 <= r < d
    ensures y / d == k && y % d == r
  {
    var e := y / d - k;
    assert y == d * (y / d) + y % d;
    assert d * e == d * (y / d) - d * k;
    assert e >= 1 ==> d * e >= d;
    assert e <= -1 ==> d * e <= -d;
  }
}
