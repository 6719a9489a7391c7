/**
 * `find_process_jobs` (helper_functions/non_ibmq_functions.py): the slice of a job list that one
 * worker of a pool processes. The jobs are split into `num_workers` contiguous runs whose sizes
 * differ by at most one, the longer runs going to the lowest ranks.
 */
module Jobs {
  import opened Common

  /** Python's `a % b`: the remainder takes the sign of the divisor. */
  function PyMod(a: int, b: int): (r: int)
    requires b != 0
    ensures b > 0 ==> 0 <= r < b
    ensures b > 0 ==> r == a % b
    ensures b < 0 ==> b < r <= 0
  {
    var e := a % b;
    if b < 0 && e != 0 then e + b else e
  }

  /** Python's `int(a / b)` for a non-negative `a`: the quotient truncated towards zero. */
  function TruncDiv(a: nat, b: int): (r: int)
    requires b != 0
    ensures b > 0 ==> r * b <= a < (r + 1) * b
    ensures b < 0 ==> r <= 0 && -r * -b <= a < (-r + 1) * -b
  {
    if b > 0 then a / b else -(a / -b)
  }

  /** Python's reading of a slice bound `i` of a sequence of length `n`. */
  function SliceBound(i: int, n: nat): (r: nat)
    ensures r <= n
    ensures 0 <= i <= n ==> r == i
  {
    if i < 0 then (if n + i < 0 then 0 else n + i) else if i > n then n else i
  }

  /** Python's `s[a:b]`. */
  function Slice<T>(s: seq<T>, a: int, b: int): (r: seq<T>)
    ensures 0 <= a <= b <= |s| ==> r == s[a..b]
    ensures a >= |s| ==> r == []
  {
    var lo := SliceBound(a, |s|);
    var hi := SliceBound(b, |s|);
    if lo < hi then s[lo..hi] else []
  }

  /** `jobs_start` and `jobs_stop` for a list of `n` jobs (lines 56-63). */
  function Bounds(n: nat, rank: int, numWorkers: int): (int, int)
    requires numWorkers != 0
  {
    var count := TruncDiv(n, numWorkers);
    var remainder := PyMod(n, numWorkers);
    if rank < remainder then
      var start := rank * (count + 1);
      (start, start + count + 1)
    else
      var start := rank * count + remainder;
      (start, start + (count - 1) + 1)
  }

  /** Lines 55-65: the jobs of worker `rank`; a pool of no workers divides by zero. */
  function ProcessJobs<T>(jobs: seq<T>, rank: int, numWorkers: int): (r: Result<seq<T>>)
    ensures r.Err? <==> numWorkers == 0
    ensures r.Err? ==> r.error == ZeroDivisionError
    ensures numWorkers > 0 && 0 <= rank < numWorkers ==>
      |r.value| == |jobs| / numWorkers + (if rank < |jobs| % numWorkers then 1 else 0)
  {
    if numWorkers == 0 then Err(ZeroDivisionError)
    else
      var (start, stop) := Bounds(|jobs|, rank, numWorkers);
      BoundsInRange(|jobs|, rank, numWorkers);
      Ok(Slice(jobs, start, stop))
  }

  /** For a worker of a non-empty pool, the slice bounds lie within the job list. */
  lemma {:induction false} BoundsInRange(n: nat, rank: int, numWorkers: int)
    requires numWorkers != 0
    ensures var (start, stop) := Bounds(n, rank, numWorkers);
      numWorkers > 0 && 0 <= rank < numWorkers ==>
        0 <= start <= stop <= n &&
        stop - start == n / numWorkers + (if rank < n % numWorkers then 1 else 0)
  {
    if numWorkers > 0 && 0 <= rank < numWorkers {
      var count := n / numWorkers;
      var remainder := n % numWorkers;
      DivMod(n, numWorkers);
      if rank < remainder {
        // stop = (rank + 1) * (count + 1) <= remainder * (count + 1) <= numWorkers * count + remainder
        Distribute(rank, count + 1);
        MulMono(rank + 1, remainder, count + 1);
        Distribute(remainder, count);
        MulMono(remainder, numWorkers, count);
      } else {
        // stop = (rank + 1) * count + remainder <= numWorkers * count + remainder
        Distribute(rank, count);
        MulMono(rank + 1, numWorkers, count);
      }
    }
  }

  lemma {:induction false} MulMono(a: nat, b: nat, c: nat)
    requires a <= b
    ensures a * c <= b * c
  {
  }

  lemma {:induction false} Distribute(a: int, c: int)
    ensures (a + 1) * c == a * c + c
  {
  }

  lemma {:induction false} DivMod(n: nat, w: int)
    requires w > 0
    ensures n == w * (n / w) + n % w && 0 <= n % w < w && n / w >= 0
  {
  }

  /** Worker `rank + 1` starts where worker `rank` stops, so the slices are contiguous. */
  lemma {:induction false} Contiguous(n: nat, rank: int, numWorkers: int)
    requires numWorkers > 0
    ensures Bounds(n, rank, numWorkers).1 == Bounds(n, rank + 1, numWorkers).0
  {
    var count := n / numWorkers;
    var remainder := n % numWorkers;
    if rank + 1 < remainder {
      assert (rank + 1) * (count + 1) == rank * (count + 1) + count + 1;
    } else if rank < remainder {
      assert rank + 1 == remainder;
      assert (rank + 1) * count + remainder == rank * (count + 1) + count + 1;
    } else {
      assert (rank + 1) * count + remainder == rank * count + remainder + count;
    }
  }

  /** Worker 0 starts at the first job and the last worker stops after the last one. */
  lemma {:induction false} Ends(n: nat, numWorkers: int)
    requires numWorkers > 0
    ensures Bounds(n, 0, numWorkers).0 == 0
    ensures Bounds(n, numWorkers, numWorkers).0 == n
    ensures Bounds(n, numWorkers - 1, numWorkers).1 == n
  {
    Contiguous(n, numWorkers - 1, numWorkers);
    assert n == numWorkers * (n / numWorkers) + n % numWorkers;
  }

  /** The slices of workers `0 .. k - 1`, in rank order, joined. */
  function Processed<T>(jobs: seq<T>, numWorkers: int, k: nat): seq<T>
    requires numWorkers > 0 && k <= numWorkers
  {
    if k == 0 then [] else Processed(jobs, numWorkers, k - 1) + ProcessJobs(jobs, k - 1, numWorkers).value
  }

  /** The first `k` workers together process exactly the jobs before worker `k`'s start, in order. */
  lemma {:induction false} ProcessedPrefix<T>(jobs: seq<T>, numWorkers: int, k: nat)
    requires numWorkers > 0 && k <= numWorkers
    ensures 0 <= Bounds(|jobs|, k, numWorkers).0 <= |jobs|
    ensures Processed(jobs, numWorkers, k) == jobs[..Bounds(|jobs|, k, numWorkers).0]
  {
    if k == 0 {
      Ends(|jobs|, numWorkers);
    } else {
      ProcessedPrefix(jobs, numWorkers, k - 1);
      BoundsInRange(|jobs|, k - 1, numWorkers);
      Contiguous(|jobs|, k - 1, numWorkers);
      var (start, stop) := Bounds(|jobs|, k - 1, numWorkers);
      assert jobs[..start] + jobs[start..stop] == jobs[..stop];
    }
  }

  /** Over ranks `0 .. num_workers - 1` the slices cover every job exactly once, in order. */
  lemma {:induction false} AllJobsProcessed<T>(jobs: seq<T>, numWorkers: int)
    requires numWorkers > 0
    ensures Processed(jobs, numWorkers, numWorkers) == jobs
  {
    ProcessedPrefix(jobs, numWorkers, numWorkers);
    Ends(|jobs|, numWorkers);
    assert jobs[..|jobs|] == jobs;
  }

  /** Any two workers' shares differ in size by at most one job. */
  lemma {:induction false} Balanced<T>(jobs: seq<T>, rank1: int, rank2: int, numWorkers: int)
    requires numWorkers > 0 && 0 <= rank1 < numWorkers && 0 <= rank2 < numWorkers
    ensures -1 <= |ProcessJobs(jobs, rank1, numWorkers).value| - |ProcessJobs(jobs, rank2, numWorkers).value| <= 1
    ensures rank1 <= rank2 ==> |ProcessJobs(jobs, rank1, numWorkers).value| >= |ProcessJobs(jobs, rank2, numWorkers).value|
  {
  }

  /** A rank at or beyond the pool size gets no jobs. */
  lemma {:induction false} IdleRank<T>(jobs: seq<T>, rank: int, numWorkers: int)
    requires numWorkers > 0 && rank >= numWorkers
    ensures ProcessJobs(jobs, rank, numWorkers) == Ok([])
  {
    var count := |jobs| / numWorkers;
    var remainder := |jobs| % numWorkers;
    assert |jobs| == numWorkers * count + remainder;
    MulMono(numWorkers, rank, count);
  }
}
