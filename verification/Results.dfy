/** Per-group results: two counters and the list the aggregation later reads. */
module Results {
  import opened Base

  datatype Outcome = Outcome(job: JobId, success: bool, durationMs: nat)

  datatype Tally = Tally(successCount: nat, failedCount: nat, results: seq<Outcome>)
  {
    function Record(o: Outcome): Tally {
      Tally(
        if o.success then successCount + 1 else successCount,
        if o.success then failedCount else failedCount + 1,
        results + [o])
    }

    /** What the counters promise about the list. */
    ghost predicate Counts() {
      failedCount == |FailedIds(results)| && successCount + failedCount == |results|
    }
  }

  const NO_RESULTS := Tally(0, 0, [])

  function TallyOf(m: map<GroupId, Tally>, g: GroupId): Tally {
    if g in m then m[g] else NO_RESULTS
  }

  /** The ids of failed jobs, in recorded order. */
  function FailedIds(rs: seq<Outcome>): seq<JobId> {
    if rs == [] then []
    else if rs[|rs| - 1].success then FailedIds(rs[..|rs| - 1])
    else FailedIds(rs[..|rs| - 1]) + [rs[|rs| - 1].job]
  }

  /** ids is read from rs at the positions `at`, in order, and these are exactly the positions of the failures. */
  ghost predicate Failures(rs: seq<Outcome>, ids: seq<JobId>, at: seq<nat>) {
    && |at| == |ids|
    && (forall k :: 0 <= k < |at| ==> at[k] < |rs| && !rs[at[k]].success && ids[k] == rs[at[k]].job)
    && (forall i, k :: 0 <= i < k < |at| ==> at[i] < at[k])
    && (forall i :: 0 <= i < |rs| && !rs[i].success ==> i in at)
  }

  lemma OneMore(init: seq<Outcome>, last: Outcome, ids: seq<JobId>, at: seq<nat>)
    requires Failures(init, ids, at)
    ensures last.success ==> Failures(init + [last], ids, at)
    ensures !last.success ==> Failures(init + [last], ids + [last.job], at + [|init|])
  {
  }

  lemma {:induction false} FailedAt(rs: seq<Outcome>) returns (at: seq<nat>)
    ensures Failures(rs, FailedIds(rs), at)
  {
    at := [];
    if rs != [] {
      var init, last := rs[..|rs| - 1], rs[|rs| - 1];
      at := FailedAt(init);
      OneMore(init, last, FailedIds(init), at);
      assert rs == init + [last];
      if !last.success {
        at := at + [|init|];
      }
    }
  }

  /** Recording keeps the counters in step with the list. */
  lemma RecordCounts(t: Tally, o: Outcome)
    requires t.Counts()
    ensures t.Record(o).Counts()
  {
  }
}
