/** Facts about integer multiplication and Euclidean division that the
    index arithmetic of the array and pixel-buffer code rests on. */
module IntArith {

  lemma MulMonotone(a: int, b: int, s: nat)
    requires a <= b
    ensures a * s <= b * s
  {
  }

  /** Euclidean division is determined by any quotient and remainder. */
  lemma DivModUnique(i: int, s: int, q: int, r: int)
    requires s >= 1 && i == q * s + r && 0 <= r < s
    ensures i / s == q && i % s == r
  {
    var q', r' := i / s, i % s;
    assert i == q' * s + r';
    if q' > q {
      MulMonotone(q + 1, q', s);
    } else if q' < q {
      MulMonotone(q' + 1, q, s);
    }
  }
}
