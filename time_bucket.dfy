/** Time bucketing of the live metrics ticker (`getBucket` and the delay `scheduleNextBucket`
    waits for, in src/components/hero/LiveMetricsTicker.client.tsx). Times are integral
    milliseconds, as `Date.now()` returns them. */
module TimeBucket {
  import opened Arith

  /** The bucket length the ticker uses. */
  const BUCKET_MS: int := 5000

  /** `Math.floor(nowMs / bucketMs) * bucketMs`: the start of the bucket holding `now`.
      Dafny's `/` rounds down for a positive divisor, as `Math.floor` of the quotient does. */
  function GetBucket(now: int, bucketMs: int): (b: int)
    requires 0 < bucketMs
    ensures b % bucketMs == 0
    ensures b <= now < b + bucketMs
  {
    var q := now / bucketMs;
    DivModUnique(q * bucketMs, bucketMs, q, 0);
    q * bucketMs
  }

  /** The bucket is the only multiple of `bucketMs` in the window `(now - bucketMs, now]`. */
  lemma BucketUnique(now: int, bucketMs: int, b: int)
    requires 0 < bucketMs
    requires b % bucketMs == 0 && b <= now < b + bucketMs
    ensures b == GetBucket(now, bucketMs)
  {
    var k := b / bucketMs;
    assert b == k * bucketMs;
    DivModUnique(now, bucketMs, k, now - b);
  }

  /** A bucket start is its own bucket. */
  lemma BucketIdempotent(now: int, bucketMs: int)
    requires 0 < bucketMs
    ensures GetBucket(GetBucket(now, bucketMs), bucketMs) == GetBucket(now, bucketMs)
  {
    var b := GetBucket(now, bucketMs);
    BucketUnique(b, bucketMs, b);
  }

  /** Later times never fall into earlier buckets. */
  lemma BucketMonotone(t1: int, t2: int, bucketMs: int)
    requires 0 < bucketMs && t1 <= t2
    ensures GetBucket(t1, bucketMs) <= GetBucket(t2, bucketMs)
  {
    var b1, b2 := GetBucket(t1, bucketMs), GetBucket(t2, bucketMs);
    if b2 < b1 {
      var k1, k2 := b1 / bucketMs, b2 / bucketMs;
      assert b1 == k1 * bucketMs && b2 == k2 * bucketMs;
      assert (k1 - k2) * bucketMs == b1 - b2;
      MulAtLeast(k1 - k2, bucketMs);
    }
  }

  /** `getBucket(now, bucketMs) + bucketMs - now`: the delay before the tick that moves to
      the next bucket. It is positive, at most one bucket, ends exactly on a bucket boundary,
      and no boundary lies strictly before it. */
  function NextBucketDelay(now: int, bucketMs: int): (t: int)
    requires 0 < bucketMs
    ensures 0 < t <= bucketMs
    ensures (now + t) % bucketMs == 0
    ensures GetBucket(now + t, bucketMs) == now + t
    ensures GetBucket(now + t, bucketMs) == GetBucket(now, bucketMs) + bucketMs
  {
    var b := GetBucket(now, bucketMs);
    var next := b + bucketMs;
    DivModUnique(next, bucketMs, now / bucketMs + 1, 0);
    BucketUnique(next, bucketMs, next);
    next - now
  }

  /** Every time strictly before the delay runs out still lies in the current bucket. */
  lemma DelayIsFirstBoundary(now: int, bucketMs: int, k: int)
    requires 0 < bucketMs
    requires 0 <= k < NextBucketDelay(now, bucketMs)
    ensures GetBucket(now + k, bucketMs) == GetBucket(now, bucketMs)
  {
    var b := GetBucket(now, bucketMs);
    BucketUnique(now + k, bucketMs, b);
  }
}
