/** The running mean of throttles per job, kept to two decimals, and the trimmed history of snapshots. A reset of the
    group's statistics forgets the mean, but not the number of samples it is over. */
module CongestionStats {
  import opened Base

  /** The new average, in hundredths, after the n-th sample x: what a two-decimal rendering of
      avg + (x - avg) / n gives, ties rounded up. */
  function Rounded(n: nat, avg: nat, x: nat): nat
    requires 1 <= n
  {
    (2 * ((n - 1) * avg + 100 * x) + n) / (2 * n)
  }

  function Sum(xs: seq<nat>): nat {
    if xs == [] then 0 else Sum(xs[..|xs| - 1]) + xs[|xs| - 1]
  }

  /** The average stored after the samples xs, when the last reset came after m earlier ones. */
  function AverageSince(m: nat, xs: seq<nat>): nat {
    if xs == [] then 0 else Rounded(m + |xs|, AverageSince(m, xs[..|xs| - 1]), xs[|xs| - 1])
  }

  lemma RoundedNear(n: nat, avg: nat, x: nat)
    requires 1 <= n
    ensures var r, v := Rounded(n, avg, x), (n - 1) * avg + 100 * x;
      2 * v - n <= 2 * (n * r) <= 2 * v + n
  {
  }

  lemma Peel(a: int, n: nat)
    requires 1 <= n
    ensures n * a == (n - 1) * a + a
    ensures n * (a + 1) == n * a + n
  {
  }

  /** r times n is within n/2 of prev + last, both of which lie on the right side of the bound. */
  lemma NearAbove(n: nat, r: nat, prev: nat, last: nat, bound: nat)
    requires 1 <= n && (n - 1) * bound <= prev && bound <= last && 2 * (prev + last) - n <= 2 * (n * r)
    ensures bound <= r
  {
    if r < bound {
      Scale(r + 1, bound, n);
      Peel(bound, n);
      Peel(r, n);
    }
  }

  lemma NearBelow(n: nat, r: nat, prev: nat, last: nat, bound: nat)
    requires 1 <= n && prev <= (n - 1) * bound && last <= bound && 2 * (n * r) <= 2 * (prev + last) + n
    ensures r <= bound
  {
    if bound < r {
      Scale(bound + 1, r, n);
      Peel(bound, n);
    }
  }

  /** Rounding a mean of values between lo and hi stays between them. */
  lemma RoundedWithin(n: nat, avg: nat, x: nat, lo: nat, hi: nat)
    requires 1 <= n && lo <= x <= hi && (n > 1 ==> 100 * lo <= avg <= 100 * hi)
    ensures 100 * lo <= Rounded(n, avg, x) <= 100 * hi
  {
    var r, prev := Rounded(n, avg, x), (n - 1) * avg;
    RoundedNear(n, avg, x);
    if n > 1 {
      Scale(100 * lo, avg, n - 1);
      Scale(avg, 100 * hi, n - 1);
    }
    NearAbove(n, r, prev, 100 * x, 100 * lo);
    NearBelow(n, r, prev, 100 * x, 100 * hi);
  }

  lemma Scale(a: nat, b: nat, n: nat)
    requires a <= b
    ensures n * a <= n * b
  {
  }

  function Abs(x: int): nat {
    if x < 0 then -x else x
  }

  /** Rounding errors add up slowly: n times the stored average is off the exact sum since the last reset, in
      hundredths, by less than n(n+1)/4, where n counts the samples before the reset too. */
  lemma {:induction false} ErrorSum(m: nat, xs: seq<nat>)
    ensures var n := m + |xs|; 4 * Abs(n * AverageSince(m, xs) - 100 * Sum(xs)) <= n * (n + 1)
  {
    var n := m + |xs|;
    if xs != [] {
      var init, x := xs[..|xs| - 1], xs[|xs| - 1];
      RoundedNear(n, AverageSince(m, init), x);
      ErrorSum(m, init);
      Squares(n);
    }
  }

  lemma Squares(n: nat)
    requires 1 <= n
    ensures n * (n + 1) == (n - 1) * n + 2 * n
  {
  }

  /** Without a reset the stored average is within 0.0025 (n + 1) of the exact mean of the n samples. After one it is as
      close to what the later samples alone contribute to that mean: it lacks the part of the earlier ones. */
  lemma AverageNearMean(before: seq<nat>, xs: seq<nat>)
    requires before + xs != []
    ensures var n := |before + xs| as real;
      var stored, mean, lacking := AverageSince(|before|, xs) as real / 100.0, Sum(before + xs) as real / n,
        Sum(before) as real / n;
      mean - lacking - 0.0025 * (n + 1.0) <= stored <= mean - lacking + 0.0025 * (n + 1.0)
  {
    ErrorSum(|before|, xs);
    SumConcat(before, xs);
    IntoReals(|before + xs|, AverageSince(|before|, xs), Sum(xs));
    Shares(|before + xs| as real, Sum(before) as real, Sum(xs) as real);
  }

  lemma Shares(n: real, a: real, b: real)
    requires n >= 1.0
    ensures (a + b) / n - a / n == b / n
  {
  }

  lemma {:induction false} SumConcat(xs: seq<nat>, ys: seq<nat>)
    ensures Sum(xs + ys) == Sum(xs) + Sum(ys)
  {
    if ys == [] {
      assert xs + ys == xs;
    } else {
      SumConcat(xs, ys[..|ys| - 1]);
      assert (xs + ys)[..|xs + ys| - 1] == xs + ys[..|ys| - 1];
    }
  }

  lemma ProductAsReal(a: nat, b: nat)
    ensures (a * b) as real == a as real * b as real
  {
  }

  lemma IntoReals(n: nat, avg: nat, sum: nat)
    requires 1 <= n && 4 * Abs(n * avg - 100 * sum) <= n * (n + 1)
    ensures var mean := sum as real / n as real;
      mean - 0.0025 * (n as real + 1.0) <= avg as real / 100.0 <= mean + 0.0025 * (n as real + 1.0)
  {
    ProductAsReal(n, avg);
    ProductAsReal(n, n + 1);
    Divide(n as real, avg as real, sum as real, sum as real / n as real);
  }

  lemma Divide(n: real, avg: real, sum: real, mean: real)
    requires n >= 1.0 && mean == sum / n
    requires 4.0 * (n * avg - 100.0 * sum) <= n * (n + 1.0) && 4.0 * (100.0 * sum - n * avg) <= n * (n + 1.0)
    ensures mean - 0.0025 * (n + 1.0) <= avg / 100.0 <= mean + 0.0025 * (n + 1.0)
  {
    assert n * mean == sum;
    NotAbove(n, avg, sum, mean);
    NotBelow(n, avg, sum, mean);
  }

  lemma NotAbove(n: real, avg: real, sum: real, mean: real)
    requires n >= 1.0 && n * mean == sum && 4.0 * (n * avg - 100.0 * sum) <= n * (n + 1.0)
    ensures 4.0 * (avg - 100.0 * mean) <= n + 1.0
  {
    assert n * (100.0 * mean) == 100.0 * sum;
    Scaled(n, avg, 100.0 * mean, n + 1.0);
  }

  lemma NotBelow(n: real, avg: real, sum: real, mean: real)
    requires n >= 1.0 && n * mean == sum && 4.0 * (100.0 * sum - n * avg) <= n * (n + 1.0)
    ensures 4.0 * (100.0 * mean - avg) <= n + 1.0
  {
    assert n * (100.0 * mean) == 100.0 * sum;
    Scaled(n, 100.0 * mean, avg, n + 1.0);
  }

  lemma Scaled(n: real, x: real, y: real, bound: real)
    requires n >= 1.0 && 4.0 * (n * x - n * y) <= n * bound
    ensures 4.0 * (x - y) <= bound
  {
  }

  /** The stored average never exceeds the largest sample since the reset, and without a reset it is not below the
      smallest. */
  lemma {:induction false} AverageWithinSamples(m: nat, xs: seq<nat>, lo: nat, hi: nat)
    requires xs != [] && forall i :: 0 <= i < |xs| ==> lo <= xs[i] <= hi
    ensures AverageSince(m, xs) <= 100 * hi && (m == 0 ==> 100 * lo <= AverageSince(m, xs))
  {
    var init := xs[..|xs| - 1];
    if init != [] {
      AverageWithinSamples(m, init, lo, hi);
    }
    RoundedWithin(m + |xs|, AverageSince(m, init), xs[|xs| - 1], if m == 0 then lo else 0, hi);
  }

  /** The last `keep` members; as in a range from -keep to the end, keeping zero means keeping all. */
  function Trimmed<T>(s: seq<T>, keep: nat): seq<T> {
    if keep == 0 || |s| <= keep then s else s[|s| - keep..]
  }

  class CongestionStatsService<Snapshot> {
    const maxHistoryLength: nat
    var completed: nat
    var average: nat
    var history: seq<Snapshot>
    ghost var before: seq<nat>
    ghost var samples: seq<nat>
    ghost var snapshots: seq<Snapshot>

    ghost predicate Valid()
      reads this
    {
      && completed == |before| + |samples| && average == AverageSince(|before|, samples)
      && history == Trimmed(snapshots, maxHistoryLength)
    }

    constructor (statsRetentionMs: nat)
      ensures Valid() && before == samples == [] && snapshots == [] && maxHistoryLength == statsRetentionMs / 1000
    {
      maxHistoryLength := statsRetentionMs / 1000;
      completed, average, history := 0, 0, [];
      before, samples, snapshots := [], [], [];
    }

    method RecordJobCompletion(throttleCount: nat)
      requires Valid()
      modifies this
      ensures Valid() && before == old(before) && samples == old(samples) + [throttleCount]
      ensures snapshots == old(snapshots)
    {
      completed := completed + 1;
      average := Rounded(completed, average, throttleCount);
      samples := samples + [throttleCount];
      assert samples[..|samples| - 1] == old(samples);
    }

    /** What resetting the group's statistics does to the average: its hash is deleted, the count is another key. */
    method ResetGroupStats()
      requires Valid()
      modifies this
      ensures Valid() && before == old(before + samples) && samples == [] && snapshots == old(snapshots)
      ensures completed == old(completed)
    {
      average := 0;
      before, samples := before + samples, [];
    }

    /** Appending and trimming keeps the last snapshots, no more than the maximum; but a maximum of zero keeps all. */
    method SnapshotCongestion(snapshot: Snapshot)
      requires Valid()
      modifies this
      ensures Valid() && snapshots == old(snapshots) + [snapshot] && before == old(before) && samples == old(samples)
      ensures |history| <= |snapshots| && history == snapshots[|snapshots| - |history|..]
      ensures maxHistoryLength > 0 && |snapshots| > maxHistoryLength ==> |history| == maxHistoryLength
      ensures maxHistoryLength == 0 || |snapshots| <= maxHistoryLength ==> history == snapshots
    {
      history := history + [snapshot];
      history := Trimmed(history, maxHistoryLength);
      snapshots := snapshots + [snapshot];
    }
  }
}
