/**
 The sliding request window of the Kubernetes API diagnostics
 (backend/cluster_runtime_api_diagnostics.go:143-191).

 Sixty buckets, one per second modulo sixty, stand for the whole history of requests: every window of
 up to sixty seconds that ends at or after the last request is counted exactly.
 */
module RequestWindow {

  const WINDOW := 60

  datatype Bucket = Bucket(second: int, count: int)

  /** Go's remainder takes the sign of the dividend. */
  function Remainder(a: int, b: int): int
    requires b > 0
  {
    if a >= 0 then a % b else -((-a) % b)
  }

  /** The bucket of a second: the remainder, moved up if negative. */
  function IndexOf(second: int): (i: int)
    ensures 0 <= i < WINDOW
  {
    var r := Remainder(second, WINDOW);
    if r < 0 then r + WINDOW else r
  }

  /** Seconds share a bucket exactly when they differ by whole windows. */
  lemma IndexIsResidue(second: int)
    ensures IndexOf(second) == second % WINDOW
  {
  }

  lemma SameBucketApart(a: int, b: int)
    requires IndexOf(a) == IndexOf(b) && a <= b < a + WINDOW
    ensures a == b
  {
    IndexIsResidue(a);
    IndexIsResidue(b);
    var q, q', r := a / WINDOW, b / WINDOW, a % WINDOW;
    assert a == WINDOW * q + r && b == WINDOW * q' + r;
    assert q == q';
  }

  // ----- The full history -----

  ghost predicate NonDecreasing(log: seq<int>) {
    forall i, j | 0 <= i < j < |log| :: log[i] <= log[j]
  }

  /** Requests in the seconds lo..hi. */
  function CountBetween(log: seq<int>, lo: int, hi: int): nat {
    if log == [] then 0
    else CountBetween(log[..|log| - 1], lo, hi) + if lo <= log[|log| - 1] <= hi then 1 else 0
  }

  function CountAt(log: seq<int>, second: int): nat {
    CountBetween(log, second, second)
  }

  /** Those of them that belong to bucket i. */
  function CountInBucket(log: seq<int>, lo: int, hi: int, i: int): nat {
    if log == [] then 0
    else CountInBucket(log[..|log| - 1], lo, hi, i) + if lo <= log[|log| - 1] <= hi && IndexOf(log[|log| - 1]) == i then 1 else 0
  }

  function SumOfBuckets(log: seq<int>, lo: int, hi: int, n: nat): nat {
    if n == 0 then 0 else SumOfBuckets(log, lo, hi, n - 1) + CountInBucket(log, lo, hi, n - 1)
  }

  lemma {:induction false} OneMoreRequest(log: seq<int>, lo: int, hi: int, n: nat)
    requires log != []
    ensures var last := log[|log| - 1];
            SumOfBuckets(log, lo, hi, n) ==
            SumOfBuckets(log[..|log| - 1], lo, hi, n) + if lo <= last <= hi && IndexOf(last) < n then 1 else 0
  {
    if n > 0 {
      OneMoreRequest(log, lo, hi, n - 1);
    }
  }

  lemma {:induction false} NoRequests(lo: int, hi: int, n: nat)
    ensures SumOfBuckets([], lo, hi, n) == 0
  {
    if n > 0 {
      NoRequests(lo, hi, n - 1);
    }
  }

  /** Counting by bucket counts every request once. */
  lemma {:induction false} BucketsPartition(log: seq<int>, lo: int, hi: int)
    ensures SumOfBuckets(log, lo, hi, WINDOW) == CountBetween(log, lo, hi)
  {
    if log == [] {
      NoRequests(lo, hi, WINDOW);
    } else {
      BucketsPartition(log[..|log| - 1], lo, hi);
      OneMoreRequest(log, lo, hi, WINDOW);
    }
  }

  lemma AppendKeepsOrder(log: seq<int>, second: int)
    requires NonDecreasing(log) && forall s | s in log :: s <= second
    ensures NonDecreasing(log + [second])
  {
    assert forall i | 0 <= i < |log| :: log[i] in log;
  }

  // ----- What a bucket remembers -----

  /** Bucket i holds the latest second logged for it, with the number of its requests, or nothing. */
  ghost predicate Remembers(bucket: Bucket, i: int, log: seq<int>) {
    && (bucket.count == 0 ==> forall s | s in log :: IndexOf(s) != i)
    && (bucket.count != 0 ==> bucket.second in log && IndexOf(bucket.second) == i && bucket.count == CountAt(log, bucket.second))
    && (bucket.count != 0 ==> forall s | s in log && IndexOf(s) == i :: s <= bucket.second)
  }

  lemma {:induction false} CountNone(log: seq<int>, lo: int, hi: int, i: int)
    requires forall s | s in log && lo <= s <= hi :: IndexOf(s) != i
    ensures CountInBucket(log, lo, hi, i) == 0
  {
    if log != [] {
      CountNone(log[..|log| - 1], lo, hi, i);
    }
  }

  lemma {:induction false} CountOnly(log: seq<int>, lo: int, hi: int, second: int)
    requires lo <= second <= hi
    requires forall s | s in log && lo <= s <= hi && IndexOf(s) == IndexOf(second) :: s == second
    ensures CountInBucket(log, lo, hi, IndexOf(second)) == CountAt(log, second)
  {
    if log != [] {
      CountOnly(log[..|log| - 1], lo, hi, second);
    }
  }

  function Contribution(bucket: Bucket, lo: int, hi: int): int {
    if lo <= bucket.second <= hi then bucket.count else 0
  }

  /** Within a window of at most sixty seconds that reaches the last request, a bucket contributes
      exactly the requests of its residue. */
  lemma BucketContributes(bucket: Bucket, i: int, log: seq<int>, lo: int, hi: int)
    requires Remembers(bucket, i, log) && hi - lo < WINDOW && forall s | s in log :: s <= hi
    ensures Contribution(bucket, lo, hi) == CountInBucket(log, lo, hi, i)
  {
    if bucket.count == 0 || bucket.second < lo {
      CountNone(log, lo, hi, i);
    } else {
      forall s | s in log && lo <= s <= hi && IndexOf(s) == i ensures s == bucket.second {
        SameBucketApart(s, bucket.second);
      }
      CountOnly(log, lo, hi, bucket.second);
    }
  }

  lemma {:induction false} CountAbsent(log: seq<int>, second: int)
    requires second !in log
    ensures CountAt(log, second) == 0
  {
    if log != [] {
      CountAbsent(log[..|log| - 1], second);
    }
  }

  /** What `record` does to the bucket of its second. */
  function Bumped(bucket: Bucket, second: int): Bucket {
    if bucket.second != second then Bucket(second, 1) else bucket.(count := bucket.count + 1)
  }

  lemma RecordKeepsOwnBucket(bucket: Bucket, log: seq<int>, second: int)
    requires Remembers(bucket, IndexOf(second), log) && forall s | s in log :: s <= second
    ensures Remembers(Bumped(bucket, second), IndexOf(second), log + [second])
    ensures Bumped(bucket, second).count == CountAt(log + [second], second)
  {
    var more := log + [second];
    assert more[..|log|] == log;
    if bucket.count == 0 || bucket.second != second {
      assert second !in log;
      CountAbsent(log, second);
    }
  }

  lemma RecordKeepsOtherBucket(bucket: Bucket, i: int, log: seq<int>, second: int)
    requires Remembers(bucket, i, log) && i != IndexOf(second)
    ensures Remembers(bucket, i, log + [second])
  {
    assert (log + [second])[..|log|] == log;
  }

  // ----- The peak -----

  ghost predicate IsPeak(peak: int, log: seq<int>) {
    && (forall s: int :: CountAt(log, s) <= peak)
    && (log == [] ==> peak == 0)
    && (log != [] ==> exists s: int :: CountAt(log, s) == peak)
  }

  lemma RecordKeepsPeak(peak: int, log: seq<int>, second: int, count: int)
    requires IsPeak(peak, log) && count == CountAt(log + [second], second)
    ensures IsPeak(if count > peak then count else peak, log + [second])
  {
    var more := log + [second];
    assert more[..|log|] == log;
    forall s: int ensures CountAt(more, s) == CountAt(log, s) + if s == second then 1 else 0 {}
    if count <= peak {
      var s: int :| CountAt(log, s) == peak;
      assert CountAt(more, s) == peak;
    } else {
      assert CountAt(more, second) == count;
    }
  }

  class KubernetesAPIMetrics {
    const buckets: array<Bucket>
    var peakQPS1s: int
    var totalRequests: int
    ghost var log: seq<int>   // the seconds of all requests so far

    ghost predicate Valid()
      reads this, buckets
    {
      && buckets.Length == WINDOW
      && NonDecreasing(log)
      && (forall i | 0 <= i < WINDOW :: Remembers(buckets[i], i, log))
      && IsPeak(peakQPS1s, log)
      && totalRequests == |log|
    }

    constructor ()
      ensures Valid() && fresh(buckets) && log == []
    {
      buckets := new Bucket[WINDOW](_ => Bucket(0, 0));
      peakQPS1s, totalRequests, log := 0, 0, [];
    }

    method Record(second: int)
      requires Valid() && forall s | s in log :: s <= second
      modifies this, buckets
      ensures Valid() && log == old(log) + [second]
    {
      var index := IndexOf(second);
      AppendKeepsOrder(log, second);
      RecordKeepsOwnBucket(buckets[index], log, second);
      forall i | 0 <= i < WINDOW && i != index {
        RecordKeepsOtherBucket(buckets[i], i, log, second);
      }
      var bucket := buckets[index];
      if bucket.second != second {
        bucket := Bucket(second, 0);
      }
      bucket := bucket.(count := bucket.count + 1);
      buckets[index] := bucket;
      RecordKeepsPeak(peakQPS1s, log, second, bucket.count);
      if bucket.count > peakQPS1s {
        peakQPS1s := bucket.count;
      }
      totalRequests := totalRequests + 1;
      log := log + [second];
    }

    /** Exact for every window of one to sixty seconds that does not end before the last request. */
    method CountWindow(now: int, seconds: int) returns (total: int)
      requires Valid() && 1 <= seconds <= WINDOW && forall s | s in log :: s <= now
      ensures total == CountBetween(log, now - seconds + 1, now)
    {
      total := 0;
      var oldest := now - seconds + 1;
      for i := 0 to buckets.Length
        invariant total == SumOfBuckets(log, oldest, now, i)
      {
        BucketContributes(buckets[i], i, log, oldest, now);
        if buckets[i].second >= oldest && buckets[i].second <= now {
          total := total + buckets[i].count;
        }
      }
      BucketsPartition(log, oldest, now);
    }
  }
}
