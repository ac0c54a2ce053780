/** Splitting a list into batches of a fixed size: item i is in batch i / size. */
module Batches {
  function Min(a: int, b: int): int { if a < b then a else b }

  /** A whole batch number apart is at least `size` apart. */
  lemma BatchGap(a: int, b: int, size: int)
    requires a < b && size > 0
    ensures a * size + size <= b * size
  {
    assert (b - a - 1) * size >= 0;
    assert (b - a - 1) * size == b * size - a * size - size;
  }

  lemma BatchOf(i: nat, size: int, b: nat)
    requires size > 0
    ensures i / size == b <==> b * size <= i < b * size + size
  {
    var q := i / size;
    assert q * size <= i < q * size + size by {
      assert i == q * size + i % size;
    }
    if q < b {
      BatchGap(q, b, size);
    } else if b < q {
      BatchGap(b, q, size);
    }
  }

  lemma BatchBounds(n: nat, size: int, b: nat)
    requires n > 0 && size > 0
    ensures b < (n - 1) / size ==> b * size + size <= n
    ensures b == (n - 1) / size ==> b * size < n <= b * size + size
    ensures b > (n - 1) / size ==> n <= b * size
  {
    var last := (n - 1) / size;
    BatchOf(n - 1, size, last);
    if b < last {
      BatchGap(b, last, size);
    } else if b > last {
      BatchGap(last, b, size);
    }
  }

  /** The next item is in the same batch or in the next one. */
  lemma NextBatch(i: nat, size: int)
    requires size > 0
    ensures i / size <= (i + 1) / size <= i / size + 1
    ensures 0 / size == 0
  {
    var q := i / size;
    BatchOf(0, size, 0);
    BatchOf(i, size, q);
    if i + 1 < q * size + size {
      BatchOf(i + 1, size, q);
    } else {
      assert (q + 1) * size == q * size + size;
      BatchOf(i + 1, size, q + 1);
    }
  }
}
