/** Price bucketing: `Math.floor(price / aggregate) * aggregate`, with prices
    and the step in hundredths so that the division is exact. For a positive
    divisor Dafny's `/` rounds down, which is what `Math.floor` does. */
module Bucketing {

  /** The bucket a price falls in: the largest multiple of `step` that is
      not above `price`. */
  function Bucket(price: int, step: int): (b: int)
    requires step > 0
    ensures b % step == 0
    ensures b <= price < b + step
  {
    MultipleMod(price / step, step);
    (price / step) * step
  }

  /** A multiple of `step` whose half-open interval holds `price` is its bucket:
      the bucket is determined by the two bounds above. */
  lemma BucketUnique(price: int, step: int, q: int)
    requires step > 0
    requires q * step <= price < q * step + step
    ensures Bucket(price, step) == q * step
  {
    var k := price / step;
    assert k * step <= price < k * step + step;
    if k < q {
      MulMonotone(k + 1, q, step);
      assert false;
    } else if k > q {
      MulMonotone(q + 1, k, step);
      assert false;
    }
  }

  /** A bucket price is its own bucket. */
  lemma BucketIdempotent(price: int, step: int)
    requires step > 0
    ensures Bucket(Bucket(price, step), step) == Bucket(price, step)
  {
    BucketUnique(Bucket(price, step), step, price / step);
  }

  /** Bucketing keeps the order of prices. */
  lemma BucketMonotone(p: int, p': int, step: int)
    requires step > 0
    requires p <= p'
    ensures Bucket(p, step) <= Bucket(p', step)
  {
    var k, k' := p / step, p' / step;
    if k > k' {
      MulMonotone(k' + 1, k, step);
      assert false;
    }
    MulMonotone(k, k', step);
  }

  /** Two prices share a bucket exactly when they lie in the same interval
      `[q * step, q * step + step)`. */
  lemma SameBucket(p: int, p': int, step: int)
    requires step > 0
    ensures Bucket(p, step) == Bucket(p', step) <==> p / step == p' / step
  {
    if p / step != p' / step {
      if p / step < p' / step {
        MulMonotone(p / step + 1, p' / step, step);
      } else {
        MulMonotone(p' / step + 1, p / step, step);
      }
    }
  }

  lemma MultipleMod(k: int, step: int)
    requires step > 0
    ensures (k * step) % step == 0
  {
    var m := k * step;
    var d, r := m / step, m % step;
    assert m == d * step + r && 0 <= r < step;
    if d < k {
      MulMonotone(d + 1, k, step);
    } else if d > k {
      MulMonotone(k + 1, d, step);
    }
  }

  lemma MulMonotone(a: int, b: int, c: int)
    requires a <= b && c > 0
    ensures a * c <= b * c
  {
    assert b * c - a * c == (b - a) * c;
  }
}
