/** Aggregation of a group's result list: it is read page by page, mapped, and reduced. */
module Aggregation {
  import opened Base
  import opened Results

  const BATCH_SIZE: nat := 5000

  datatype Mapped = Mapped(success: bool, durationMs: nat, job: JobId)

  datatype Context = Context(total: nat, successCount: nat, failedCount: nat)

  datatype Report = Report(
    successCount: nat,
    failedCount: nat,
    totalJobs: nat,
    averageDurationMs: nat,
    failedJobIds: seq<JobId>)

  function Map(o: Outcome): Mapped {
    Mapped(o.success, o.durationMs, o.job)
  }

  /** The whole list mapped, entry by entry. */
  function MapAll(rs: seq<Outcome>): (ms: seq<Mapped>)
    ensures |ms| == |rs| && forall i :: 0 <= i < |rs| ==> ms[i] == Map(rs[i])
  {
    seq(|rs|, i requires 0 <= i < |rs| => Map(rs[i]))
  }

  /** A range query for the page at an offset, as Redis clips it. */
  function Page(list: seq<Outcome>, offset: nat, size: nat): seq<Outcome> {
    list[Min(offset, |list|)..Min(offset + size, |list|)]
  }

  lemma PageAt(last: seq<Outcome>, length: nat, offset: nat)
    requires length <= |last|
    ensures var batch := Page(last[..length], offset, BATCH_SIZE);
      && (batch != [] ==> offset + |batch| <= length)
      && forall i :: 0 <= i < |batch| ==> batch[i] == last[offset + i]
  {
  }

  /** lengths[k] is how much of `last`, the list as it will finally be, the k-th page query can see. */
  predicate Appending(last: seq<Outcome>, lengths: seq<nat>) {
    && |lengths| == |last| / BATCH_SIZE + 1
    && (forall k :: 0 <= k < |lengths| ==> lengths[k] <= |last|)
    && (forall j, k :: 0 <= j < k < |lengths| ==> lengths[j] <= lengths[k])
  }

  /** The paged loop, with results appended while it runs: it maps once and in order every entry of the list as
      it stood at the last query made. */
  method Collect(last: seq<Outcome>, lengths: seq<nat>) returns (allMapped: seq<Mapped>)
    requires Appending(last, lengths)
    ensures |allMapped| in lengths && |allMapped| <= |last| && allMapped == MapAll(last[..|allMapped|])
    ensures forall k :: 0 <= k < |allMapped| ==>
      && allMapped[k].job == last[k].job && allMapped[k].success == last[k].success
      && allMapped[k].durationMs == last[k].durationMs
  {
    allMapped := [];
    var offset, query := 0, 0;
    while true
      invariant offset == |allMapped| == query * BATCH_SIZE <= |last|
      invariant query > 0 ==> offset <= lengths[query - 1]
      invariant forall k :: 0 <= k < |allMapped| ==> allMapped[k] == Map(last[k])
      decreases |last| - offset
    {
      assert query < |lengths|;
      var batch := Page(last[..lengths[query]], offset, BATCH_SIZE);
      query := query + 1;
      if |batch| == 0 {
        break;
      }
      PageAt(last, lengths[query - 1], offset);
      for i := 0 to |batch|
        invariant |allMapped| == offset + i
        invariant forall k :: 0 <= k < |allMapped| ==> allMapped[k] == Map(last[k])
      {
        allMapped := allMapped + [Map(batch[i])];
      }
      offset := offset + |batch|;
      if |batch| < BATCH_SIZE {
        break;
      }
    }
  }

  function TotalDuration(ms: seq<Mapped>): nat {
    if ms == [] then 0 else TotalDuration(ms[..|ms| - 1]) + ms[|ms| - 1].durationMs
  }

  /** The durations of recorded outcomes, added up. */
  function RecordedDuration(rs: seq<Outcome>): nat {
    if rs == [] then 0 else RecordedDuration(rs[..|rs| - 1]) + rs[|rs| - 1].durationMs
  }

  /** Mapping loses no time. */
  lemma {:induction false} DurationMapped(rs: seq<Outcome>)
    ensures TotalDuration(MapAll(rs)) == RecordedDuration(rs)
  {
    if rs != [] {
      DurationMapped(rs[..|rs| - 1]);
      assert MapAll(rs)[..|rs| - 1] == MapAll(rs[..|rs| - 1]);
    }
  }

  function FailedOf(ms: seq<Mapped>): seq<JobId> {
    if ms == [] then []
    else FailedOf(ms[..|ms| - 1]) + if ms[|ms| - 1].success then [] else [ms[|ms| - 1].job]
  }

  method Reduce(mapped: seq<Mapped>, context: Context) returns (r: Report)
    ensures r.successCount == context.successCount && r.failedCount == context.failedCount
    ensures r.totalJobs == context.total
    ensures mapped != [] ==>
      r.averageDurationMs * |mapped| <= TotalDuration(mapped) < (r.averageDurationMs + 1) * |mapped|
    ensures mapped == [] ==> r.averageDurationMs == 0
    ensures r.failedJobIds == FailedOf(mapped)
  {
    var totalDuration, failedJobIds := 0, [];
    for i := 0 to |mapped|
      invariant totalDuration == TotalDuration(mapped[..i]) && failedJobIds == FailedOf(mapped[..i])
    {
      assert mapped[..i + 1][..i] == mapped[..i];
      totalDuration := totalDuration + mapped[i].durationMs;
      if !mapped[i].success {
        failedJobIds := failedJobIds + [mapped[i].job];
      }
    }
    assert mapped[..|mapped|] == mapped;
    var average := 0;
    if |mapped| > 0 {
      average := totalDuration / |mapped|;
      Floor(totalDuration, |mapped|);
    }
    r := Report(context.successCount, context.failedCount, context.total, average, failedJobIds);
  }

  lemma Floor(x: nat, n: nat)
    requires n > 0
    ensures x / n * n <= x < (x / n + 1) * n
  {
  }

  /** What a report must be that takes its counters from a tally and the rest from a result list. */
  predicate IsReportOver(r: Report, t: Tally, total: nat, rs: seq<Outcome>) {
    && r.successCount == t.successCount && r.failedCount == t.failedCount && r.totalJobs == total
    && r.failedJobIds == FailedIds(rs)
    && (if rs == [] then r.averageDurationMs == 0
        else r.averageDurationMs * |rs| <= RecordedDuration(rs) < (r.averageDurationMs + 1) * |rs|)
  }

  /** What the report of a tally at rest must be. */
  predicate IsReportOf(r: Report, t: Tally, total: nat) {
    IsReportOver(r, t, total, t.results)
  }

  lemma {:induction false} FailedMapped(rs: seq<Outcome>)
    ensures FailedOf(MapAll(rs)) == FailedIds(rs)
  {
    if rs != [] {
      FailedMapped(rs[..|rs| - 1]);
      assert MapAll(rs)[..|rs| - 1] == MapAll(rs[..|rs| - 1]);
    }
  }

  /** The counters are read first and the list page by page afterwards, while results may be appended to it: the
      report is over the counters of the beginning and the list as the last query sees it. */
  method AggregateAmid(t: Tally, total: nat, last: seq<Outcome>, lengths: seq<nat>) returns (r: Report)
    requires Appending(last, lengths)
    ensures exists n: nat :: n in lengths && n <= |last| && IsReportOver(r, t, total, last[..n])
  {
    var allMapped := Collect(last, lengths);
    FailedMapped(last[..|allMapped|]);
    DurationMapped(last[..|allMapped|]);
    r := Reduce(allMapped, Context(total, t.successCount, t.failedCount));
  }

  /** The report of a group at rest. */
  method Aggregate(t: Tally, total: nat) returns (r: Report)
    ensures IsReportOf(r, t, total)
    ensures r.totalJobs == total && r.successCount == t.successCount && r.failedCount == t.failedCount
    ensures r.failedJobIds == FailedIds(t.results)
    ensures t.results == [] ==> r.averageDurationMs == 0
    ensures t.results != [] ==> r.averageDurationMs == RecordedDuration(t.results) / |t.results|
  {
    var lengths := seq(|t.results| / BATCH_SIZE + 1, i => |t.results|);
    r := AggregateAmid(t, total, t.results, lengths);
    assert t.results[..|t.results|] == t.results;
    if t.results != [] {
      FloorIs(r.averageDurationMs, RecordedDuration(t.results), |t.results|);
    }
  }

  lemma FloorIs(a: nat, x: nat, n: nat)
    requires a * n <= x < (a + 1) * n
    ensures n > 0 && a == x / n
  {
    Floor(x, n);
    FloorLargest(a, x / n, n, x);
    FloorLargest(x / n, a, n, x);
  }

  /** A tally leaves no choice of report. */
  lemma ReportUnique(r: Report, r': Report, t: Tally, total: nat)
    requires IsReportOf(r, t, total) && IsReportOf(r', t, total)
    ensures r == r'
  {
    if t.results != [] {
      var n, x := |t.results|, RecordedDuration(t.results);
      FloorLargest(r.averageDurationMs, r'.averageDurationMs, n, x);
      FloorLargest(r'.averageDurationMs, r.averageDurationMs, n, x);
    }
  }

  lemma FloorLargest(a: nat, b: nat, n: nat, x: nat)
    requires x < (a + 1) * n && b * n <= x
    ensures b <= a
  {
  }

  lemma {:induction false} DurationWithin(rs: seq<Outcome>, lo: nat, hi: nat)
    requires forall i :: 0 <= i < |rs| ==> lo <= rs[i].durationMs <= hi
    ensures lo * |rs| <= RecordedDuration(rs) <= hi * |rs|
  {
    if rs != [] {
      DurationWithin(rs[..|rs| - 1], lo, hi);
      Peel(lo, |rs|);
      Peel(hi, |rs|);
    }
  }

  lemma Peel(a: nat, n: nat)
    requires 1 <= n
    ensures a * n == a * (n - 1) + a
  {
  }

  lemma MeanBetween(mean: nat, n: nat, sum: nat, lo: nat, hi: nat)
    requires 1 <= n && mean * n <= sum < (mean + 1) * n && lo * n <= sum <= hi * n
    ensures lo <= mean <= hi
  {
    if mean < lo {
      Scale(mean + 1, lo, n);
    } else if hi < mean {
      Scale(hi + 1, mean, n);
    }
  }

  /** The mean of a report lies between the shortest and the longest duration recorded in its list, and it is the
      duration where all are the same. */
  lemma MeanWithin(r: Report, t: Tally, total: nat, rs: seq<Outcome>, lo: nat, hi: nat)
    requires IsReportOver(r, t, total, rs) && rs != []
    requires forall i :: 0 <= i < |rs| ==> lo <= rs[i].durationMs <= hi
    ensures lo <= r.averageDurationMs <= hi
  {
    DurationWithin(rs, lo, hi);
    MeanBetween(r.averageDurationMs, |rs|, RecordedDuration(rs), lo, hi);
  }
}
