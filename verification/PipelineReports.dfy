/** What the default report says about a group of the pipeline. Its counters are read first and its list page by page
    afterwards, while other actors go on. */
module PipelineReports {
  import opened Base
  import opened Results
  import opened Aggregation
  import opened Pipeline
  import opened PipelinePlaces
  import opened PipelineOnce
  import PipelineResults

  // ---- Results recorded in the course of a run ----

  /** What an event records in group g. */
  function RecordedBy(s: State, e: Event, g: GroupId): seq<Outcome> {
    if e.By? && e.x.Record? then
      var k := s.At(e.a);
      if (k.Completing? || k.Burying? || (k.Reporting? && k.pairs != [])) && Subject(s.store, k).1 == g
      then [PipelineResults.RecordedOutcome(k)] else []
    else []
  }

  ghost function RecordedIn(c: Config, s: State, es: seq<Event>, g: GroupId): seq<Outcome>
    decreases |es|
  {
    if es == [] || !Enabled(c, s, es[0]) then []
    else RecordedBy(s, es[0], g) + RecordedIn(c, Next(c, s, es[0]), es[1..], g)
  }

  lemma StepRecords(c: Config, s: State, e: Event, g: GroupId)
    requires Enabled(c, s, e)
    ensures Next(c, s, e).store.Tally(g).results == s.store.Tally(g).results + RecordedBy(s, e, g)
  {
    if e.By? {
      var k := s.At(e.a);
      if e.x.Record? {
        PipelineResults.RecordAdds(c, s.store, k);
      } else {
        PipelineResults.TalliesKept(c, s.store, k, e.x);
      }
    }
  }

  /** A run appends to a group's result list what it records in the group, and does nothing else to it. */
  lemma {:induction false} RunRecords(c: Config, s: State, es: seq<Event>, s': State, g: GroupId)
    requires Run(c, s, es, s')
    ensures s'.store.Tally(g).results == s.store.Tally(g).results + RecordedIn(c, s, es, g)
    decreases |es|
  {
    if es != [] {
      StepRecords(c, s, es[0], g);
      RunRecords(c, Next(c, s, es[0]), es[1..], s', g);
    }
  }

  // ---- States along a run ----

  /** The state a run has come to after its first n events. */
  ghost function After(c: Config, s: State, es: seq<Event>, n: nat): State
    decreases n
  {
    if n == 0 || es == [] || !Enabled(c, s, es[0]) then s else After(c, Next(c, s, es[0]), es[1..], n - 1)
  }

  lemma {:induction false} RunSplits(c: Config, s: State, es: seq<Event>, s': State, n: nat)
    requires Run(c, s, es, s') && n <= |es|
    ensures Run(c, s, es[..n], After(c, s, es, n)) && Run(c, After(c, s, es, n), es[n..], s')
    decreases n
  {
    if n == 0 {
      assert es[..0] == [] && es[0..] == es;
    } else {
      RunSplits(c, Next(c, s, es[0]), es[1..], s', n - 1);
      assert es[..n][1..] == es[1..][..n - 1] && es[1..][n - 1..] == es[n..];
    }
  }

  lemma {:induction false} AfterSplits(c: Config, s: State, es: seq<Event>, s': State, m: nat, n: nat)
    requires Run(c, s, es, s') && m <= n <= |es|
    ensures After(c, s, es, n) == After(c, After(c, s, es, m), es[m..], n - m)
    decreases m
  {
    if m == 0 {
      assert es[0..] == es;
    } else {
      AfterSplits(c, Next(c, s, es[0]), es[1..], s', m - 1, n - 1);
      assert es[1..][m - 1..] == es[m..];
    }
  }

  lemma Grows(c: Config, s: State, es: seq<Event>, s': State, g: GroupId)
    requires Run(c, s, es, s')
    ensures s.store.Tally(g).results <= s'.store.Tally(g).results
  {
    RunRecords(c, s, es, s', g);
  }

  lemma GrowsSince(c: Config, s: State, es: seq<Event>, s': State, n: nat, g: GroupId)
    requires Run(c, s, es, s') && n <= |es|
    ensures s.store.Tally(g).results <= After(c, s, es, n).store.Tally(g).results <= s'.store.Tally(g).results
  {
    RunSplits(c, s, es, s', n);
    Grows(c, s, es[..n], After(c, s, es, n), g);
    Grows(c, After(c, s, es, n), es[n..], s', g);
  }

  /** A group's list only grows along a run. */
  lemma ListGrows(c: Config, s: State, es: seq<Event>, s': State, m: nat, n: nat, g: GroupId)
    requires Run(c, s, es, s') && m <= n <= |es|
    ensures After(c, s, es, m).store.Tally(g).results <= After(c, s, es, n).store.Tally(g).results
      <= s'.store.Tally(g).results
  {
    RunSplits(c, s, es, s', m);
    AfterSplits(c, s, es, s', m, n);
    GrowsSince(c, After(c, s, es, m), es[m..], s', n - m, g);
  }

  // ---- Reports ----

  /** The k-th page query comes after times[k] events of the run, and sees the list as long as it is then. */
  ghost predicate Queries(c: Config, s: State, es: seq<Event>, g: GroupId, times: seq<nat>, lengths: seq<nat>) {
    && |times| == |lengths| && (forall k :: 0 <= k < |times| ==> times[k] <= |es|)
    && (forall j, k :: 0 <= j < k < |times| ==> times[j] <= times[k])
    && forall k :: 0 <= k < |times| ==> lengths[k] == |After(c, s, es, times[k]).store.Tally(g).results|
  }

  lemma QueriesAppend(c: Config, s: State, es: seq<Event>, s': State, g: GroupId, times: seq<nat>, lengths: seq<nat>)
    requires Run(c, s, es, s') && Queries(c, s, es, g, times, lengths)
    requires |lengths| == |s'.store.Tally(g).results| / BATCH_SIZE + 1
    ensures Appending(s'.store.Tally(g).results, lengths)
  {
    forall j, k | 0 <= j <= k < |lengths|
      ensures lengths[j] <= lengths[k] <= |s'.store.Tally(g).results|
    {
      ListGrows(c, s, es, s', times[j], times[k], g);
    }
  }

  /** An aggregation that reads group g's counters in state s and its pages in later states of a run reports the
      counters of s and the list of the state at its last query. */
  method AggregateDuring(ghost c: Config, ghost s: State, ghost es: seq<Event>, ghost s': State, g: GroupId,
                         ghost times: seq<nat>,
                         t: Tally, total: nat, last: seq<Outcome>, lengths: seq<nat>)
    returns (r: Report, ghost n: nat)
    requires Run(c, s, es, s') && t == s.store.Tally(g) && last == s'.store.Tally(g).results
    requires |lengths| == |last| / BATCH_SIZE + 1 && Queries(c, s, es, g, times, lengths)
    ensures n in times && n <= |es| && Run(c, s, es[..n], After(c, s, es, n))
    ensures IsReportOver(r, t, total, After(c, s, es, n).store.Tally(g).results)
  {
    QueriesAppend(c, s, es, s', g, times, lengths);
    r := AggregateAmid(t, total, last, lengths);
    ghost var seen: nat :| seen in lengths && seen <= |last| && IsReportOver(r, t, total, last[..seen]);
    ghost var final :| 0 <= final < |lengths| && lengths[final] == seen;
    n := times[final];
    RunSplits(c, s, es, s', n);
    ListGrows(c, s, es, s', n, n, g);
    assert last[..seen] == After(c, s, es, n).store.Tally(g).results;
  }

  lemma {:induction false} FailedConcat(rs: seq<Outcome>, more: seq<Outcome>)
    ensures FailedIds(rs + more) == FailedIds(rs) + FailedIds(more)
  {
    if more == [] {
      assert rs + more == rs;
    } else {
      FailedConcat(rs, more[..|more| - 1]);
      assert (rs + more)[..|rs + more| - 1] == rs + more[..|more| - 1];
    }
  }

  /** A report over the counters of a reachable state s and the list of a later state s', crashes included: it covers
      every job counted done by s; its counters count all of the list but what was recorded between s and s', and
      its failed count all of the listed ids but the failures among that. */
  lemma ReportAgrees(c: Config, now: nat, before: seq<Event>, s: State, es: seq<Event>, s': State, g: GroupId,
                     r: Report, total: nat)
    requires Run(c, Start(now), before, s) && Run(c, s, es, s')
    requires IsReportOver(r, s.store.Tally(g), total, s'.store.Tally(g).results)
    ensures s.store.fair.MetaOf(g).done <= r.successCount + r.failedCount
    ensures r.successCount + r.failedCount + |RecordedIn(c, s, es, g)| == |s'.store.Tally(g).results|
    ensures r.failedCount + |FailedIds(RecordedIn(c, s, es, g))| == |r.failedJobIds|
  {
    PipelineResults.ResultsBeforeCompletion(c, now, before, s, g);
    RunRecords(c, s, es, s', g);
    FailedConcat(s.store.Tally(g).results, RecordedIn(c, s, es, g));
  }

  lemma {:induction false} FailedAmongIds(rs: seq<Outcome>)
    requires NoDup(ResultIds(rs))
    ensures NoDup(FailedIds(rs)) && forall j :: j in FailedIds(rs) ==> j in ResultIds(rs)
  {
    if rs != [] {
      var init, ids := rs[..|rs| - 1], ResultIds(rs);
      assert ids == ResultIds(init) + [rs[|rs| - 1].job];
      assert forall i :: 0 <= i < |init| ==> ResultIds(init)[i] == ids[i] && ids[i] != ids[|init|];
      FailedAmongIds(init);
      assert ids[|init|] !in ResultIds(init);
      assert ids[|init|] !in FailedIds(init);
    }
  }

  /** When pops are tagged, no failed job is listed twice, and none belongs to another group, whatever the state the
      counters are from. */
  lemma ReportListsOwnJobsOnce(c: Config, now: nat, es: seq<Event>, s: State, g: GroupId, r: Report, t: Tally,
                               total: nat)
    requires InTime(c) && TaggedRun(c, Start(now), es, s) && IsReportOver(r, t, total, s.store.Tally(g).results)
    ensures NoDup(r.failedJobIds) && forall j :: j in r.failedJobIds ==> j in JobsOf(s.store, g)
  {
    ReachedBooks(c, now, es, s, g);
    FailedAmongIds(s.store.Tally(g).results);
  }
}
