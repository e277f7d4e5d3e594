/** Reliable hand-over of ready jobs to workers: in-flight deadlines, acknowledgement and recovery. */
module ReliableQueue {
  import opened Base
  import opened SortedSet

  datatype Meta = Meta(retry: nat, group: GroupId)

  datatype DeadEntry = DeadEntry(job: JobId, group: GroupId, retry: nat, failedAt: nat)

  /** A job hash's group field, or the empty id when the job has none. */
  function GroupIn(groups: map<JobId, GroupId>, j: JobId): GroupId {
    if j in groups then groups[j] else NO_GROUP
  }

  /** The ready list, the in-flight set with its metadata, the dead-letter list, and the two
      fields of the job hashes that decisions read. */
  datatype Queues = Queues(
    ready: seq<JobId>,
    deadlines: map<JobId, nat>,
    meta: map<JobId, Meta>,
    dead: seq<DeadEntry>,
    retries: map<JobId, nat>,
    groups: map<JobId, GroupId>)
  {
    function GroupOf(j: JobId): GroupId {
      GroupIn(groups, j)
    }

    function Pop(now: nat, timeoutMs: nat, m: Meta): Queues
      requires ready != []
    {
      this.(ready := ready[1..], deadlines := deadlines[ready[0] := now + timeoutMs], meta := meta[ready[0] := m])
    }

    function Remove(j: JobId): Queues {
      this.(deadlines := deadlines - {j}, meta := meta - {j})
    }

    function Extend(j: JobId, now: nat, extensionMs: nat): Queues {
      if j in deadlines then this.(deadlines := deadlines[j := now + extensionMs]) else this
    }

    /** The metadata recovery goes by: that of the in-flight entry, else the job hash. */
    function RecoveryMeta(j: JobId): Meta {
      if j in meta then meta[j] else Meta(CountAt(retries, j), GroupOf(j))
    }

    function Requeue(j: JobId): Queues {
      Remove(j).(ready := ready + [j], retries := retries[j := CountAt(retries, j) + 1])
    }

    function Bury(j: JobId, m: Meta, now: nat): Queues {
      Remove(j).(dead := dead + [DeadEntry(j, m.group, m.retry, now)])
    }

    /** Recovery of one overdue entry. */
    function RecoverOne(j: JobId, now: nat, maxRetry: nat): Queues {
      var m := RecoveryMeta(j);
      if m.retry >= maxRetry then Bury(j, m, now) else Requeue(j)
    }

    /** The pair reported for one overdue entry: only dead-lettered jobs are reported. */
    function ReportOne(j: JobId, maxRetry: nat): seq<(JobId, GroupId)> {
      var m := RecoveryMeta(j);
      if m.retry >= maxRetry then [(j, m.group)] else []
    }

    function Recover(js: seq<JobId>, now: nat, maxRetry: nat): Queues {
      if js == [] then this
      else Recover(js[..|js| - 1], now, maxRetry).RecoverOne(js[|js| - 1], now, maxRetry)
    }

    function Report(js: seq<JobId>, now: nat, maxRetry: nat): seq<(JobId, GroupId)> {
      if js == [] then [] else
      Report(js[..|js| - 1], now, maxRetry) + Recover(js[..|js| - 1], now, maxRetry).ReportOne(js[|js| - 1], maxRetry)
    }
  }

  /** The orphans that go back to the ready list, in recovery order. */
  function Survivors(q: Queues, js: seq<JobId>, maxRetry: nat): seq<JobId> {
    if js == [] then [] else
    var j := js[|js| - 1];
    Survivors(q, js[..|js| - 1], maxRetry) + (if q.RecoveryMeta(j).retry < maxRetry then [j] else [])
  }

  /** The dead-letter entries of the others. */
  function Casualties(q: Queues, js: seq<JobId>, now: nat, maxRetry: nat): seq<DeadEntry> {
    if js == [] then [] else
    var j := js[|js| - 1];
    var m := q.RecoveryMeta(j);
    Casualties(q, js[..|js| - 1], now, maxRetry)
      + (if m.retry < maxRetry then [] else [DeadEntry(j, m.group, m.retry, now)])
  }

  /** Recovering j touches nothing that belongs to another job. */
  lemma RecoverOneFrame(q: Queues, j: JobId, now: nat, maxRetry: nat, k: JobId)
    ensures var r := q.RecoverOne(j, now, maxRetry);
      && (k in r.deadlines <==> k in q.deadlines && k != j)
      && (k != j ==> r.RecoveryMeta(k) == q.RecoveryMeta(k))
      && CountAt(r.retries, k) == CountAt(q.retries, k) + if k == j && q.RecoveryMeta(j).retry < maxRetry then 1 else 0
  {
  }

  /** Recovery looks at each orphan as it was before the batch, and counts a retry for survivors only. */
  lemma {:induction false} RecoverFrame(q: Queues, js: seq<JobId>, now: nat, maxRetry: nat, k: JobId)
    requires NoDup(js)
    ensures var r := q.Recover(js, now, maxRetry);
      && (k in r.deadlines <==> k in q.deadlines && k !in js)
      && (k !in js ==> r.RecoveryMeta(k) == q.RecoveryMeta(k))
      && CountAt(r.retries, k) == CountAt(q.retries, k) + if k in js && q.RecoveryMeta(k).retry < maxRetry then 1 else 0
  {
    if js != [] {
      var init, j := js[..|js| - 1], js[|js| - 1];
      RecoverFrame(q, init, now, maxRetry, k);
      RecoverFrame(q, init, now, maxRetry, j);
      assert js == init + [j] && j !in init;
      RecoverOneFrame(q.Recover(init, now, maxRetry), j, now, maxRetry, k);
    }
  }

  /** Recovery splits the batch: each orphan goes to exactly one of the ready list and the dead-letter list. */
  lemma {:induction false} RecoverSplits(q: Queues, js: seq<JobId>, now: nat, maxRetry: nat)
    requires NoDup(js)
    ensures q.Recover(js, now, maxRetry).ready == q.ready + Survivors(q, js, maxRetry)
    ensures q.Recover(js, now, maxRetry).dead == q.dead + Casualties(q, js, now, maxRetry)
    ensures |q.Report(js, now, maxRetry)| == |Casualties(q, js, now, maxRetry)|
    ensures forall i :: 0 <= i < |q.Report(js, now, maxRetry)| ==>
      var c := Casualties(q, js, now, maxRetry)[i]; q.Report(js, now, maxRetry)[i] == (c.job, c.group)
  {
    if js != [] {
      var init, j := js[..|js| - 1], js[|js| - 1];
      RecoverSplits(q, init, now, maxRetry);
      RecoverFrame(q, init, now, maxRetry, j);
      assert j !in init;
    }
  }

  lemma RecoverStep(q: Queues, js: seq<JobId>, i: nat, now: nat, maxRetry: nat)
    requires i < |js|
    ensures var q' := q.Recover(js[..i], now, maxRetry);
      && q.Recover(js[..i + 1], now, maxRetry) == q'.RecoverOne(js[i], now, maxRetry)
      && q.Report(js[..i + 1], now, maxRetry) == q.Report(js[..i], now, maxRetry) + q'.ReportOne(js[i], maxRetry)
  {
    assert js[..i + 1][..i] == js[..i];
  }

  class ReliableQueueService {
    const ackTimeoutMs: nat
    const maxRetryCount: nat
    var ready: seq<JobId>
    var deadlines: map<JobId, nat>
    var meta: map<JobId, Meta>
    var dead: seq<DeadEntry>
    var retries: map<JobId, nat>
    var groups: map<JobId, GroupId>

    constructor (q: Queues, ackTimeoutMs: nat, maxRetryCount: nat)
      ensures View() == q && this.ackTimeoutMs == ackTimeoutMs && this.maxRetryCount == maxRetryCount
    {
      this.ackTimeoutMs, this.maxRetryCount := ackTimeoutMs, maxRetryCount;
      ready, deadlines, meta, dead := q.ready, q.deadlines, q.meta, q.dead;
      retries, groups := q.retries, q.groups;
    }

    function View(): Queues
      reads this
    {
      Queues(ready, deadlines, meta, dead, retries, groups)
    }

    /** The reliable-dequeue script, given what an earlier peek found. */
    method Pop(now: nat, m: Meta) returns (job: Option<JobId>)
      modifies this
      ensures old(ready) == [] ==> job.None? && View() == old(View())
      ensures old(ready) != [] ==> job == Some(old(ready)[0]) && View() == old(View()).Pop(now, ackTimeoutMs, m)
      ensures old(ready) != [] ==>
        && old(ready) == [job.value] + ready && retries == old(retries) && groups == old(groups) && dead == old(dead)
        && deadlines == old(deadlines)[job.value := now + ackTimeoutMs] && meta == old(meta)[job.value := m]
    {
      if ready == [] {
        return None;
      }
      var j := ready[0];
      ready := ready[1..];
      deadlines := deadlines[j := now + ackTimeoutMs];
      meta := meta[j := m];
      return Some(j);
    }

    /** Peek, then pop; here without another client's steps in between. */
    method Dequeue(now: nat) returns (job: Option<JobId>)
      modifies this
      ensures old(ready) == [] ==> job.None? && View() == old(View())
      ensures old(ready) != [] ==>
        var j := old(ready)[0];
        job == Some(j)
          && View() == old(View()).Pop(now, ackTimeoutMs, Meta(CountAt(old(retries), j), old(View()).GroupOf(j)))
    {
      if |ready| == 0 {
        return None;
      }
      var retryCount, groupId := 0, NO_GROUP;
      var peeked := ready[..1];
      if |peeked| > 0 {
        retryCount := CountAt(retries, peeked[0]);
        groupId := GroupIn(groups, peeked[0]);
      }
      job := Pop(now, Meta(retryCount, groupId));
    }

    method Ack(j: JobId) returns (removed: bool)
      modifies this
      ensures View() == old(View()).Remove(j)
      ensures deadlines == old(deadlines) - {j} && meta == old(meta) - {j}
      ensures ready == old(ready) && dead == old(dead) && retries == old(retries) && groups == old(groups)
      ensures removed == (j in old(deadlines))
    {
      removed := j in deadlines;
      deadlines := deadlines - {j};
      meta := meta - {j};
    }

    method ExtendDeadline(j: JobId, now: nat) returns (extended: bool)
      modifies this
      ensures View() == old(View()).Extend(j, now, ackTimeoutMs)
      ensures deadlines == if extended then old(deadlines)[j := now + ackTimeoutMs] else old(deadlines)
      ensures extended == (j in old(deadlines))
    {
      extended := j in deadlines;
      if extended {
        deadlines := deadlines[j := now + ackTimeoutMs];
      }
    }

    /** The recover-orphans script, for one overdue entry. */
    method RecoverEntry(j: JobId, now: nat) returns (buried: bool, groupId: GroupId)
      modifies this
      ensures View() == old(View()).RecoverOne(j, now, maxRetryCount)
      ensures old(View()).ReportOne(j, maxRetryCount) == if buried then [(j, groupId)] else []
      // the in-flight metadata decides, or the job hash where there is none
      ensures var m := if j in old(meta) then old(meta)[j] else Meta(CountAt(old(retries), j), GroupIn(old(groups), j));
        && buried == (m.retry >= maxRetryCount) && groupId == m.group
        && dead == (if buried then old(dead) + [DeadEntry(j, m.group, m.retry, now)] else old(dead))
      ensures ready == if buried then old(ready) else old(ready) + [j]
      ensures retries == if buried then old(retries) else old(retries)[j := CountAt(old(retries), j) + 1]
      ensures deadlines == old(deadlines) - {j} && meta == old(meta) - {j} && groups == old(groups)
    {
      deadlines := deadlines - {j};
      var retryCount;
      if j in meta {
        retryCount, groupId := meta[j].retry, meta[j].group;
      } else {
        retryCount := CountAt(retries, j);
        groupId := GroupIn(groups, j);
      }
      meta := meta - {j};
      buried := retryCount >= maxRetryCount;
      if buried {
        dead := dead + [DeadEntry(j, groupId, retryCount, now)];
      } else {
        retries := retries[j := CountAt(retries, j) + 1];
        ready := ready + [j];
      }
    }

    method RecoverAll(js: seq<JobId>, now: nat)
      returns (recovered: nat, deadLettered: nat, pairs: seq<(JobId, GroupId)>)
      modifies this
      ensures View() == old(View()).Recover(js, now, maxRetryCount)
      ensures pairs == old(View()).Report(js, now, maxRetryCount)
      ensures recovered + deadLettered == |js| && deadLettered == |pairs|
    {
      recovered, deadLettered, pairs := 0, 0, [];
      for i := 0 to |js|
        invariant View() == old(View()).Recover(js[..i], now, maxRetryCount)
        invariant pairs == old(View()).Report(js[..i], now, maxRetryCount)
        invariant recovered + deadLettered == i && deadLettered == |pairs|
      {
        RecoverStep(old(View()), js, i, now, maxRetryCount);
        var buried, groupId := RecoverEntry(js[i], now);
        if buried {
          deadLettered := deadLettered + 1;
          pairs := pairs + [(js[i], groupId)];
        } else {
          recovered := recovered + 1;
        }
      }
      assert js[..|js|] == js;
    }

    /** The whole script: every overdue entry of the batch is requeued or dead-lettered. */
    method RecoverOrphans(now: nat, batchSize: nat)
      returns (recovered: nat, deadLettered: nat, pairs: seq<(JobId, GroupId)>, ghost orphans: seq<JobId>)
      modifies this
      ensures DueBatch(old(deadlines), now, batchSize, orphans)
      // no overdue entry is passed over for one that fell due later
      ensures forall i :: 0 <= i < |orphans| ==> orphans[i] in old(deadlines) && old(deadlines)[orphans[i]] <= now
      ensures forall i, k :: 0 <= i < k < |orphans| ==> old(deadlines)[orphans[i]] <= old(deadlines)[orphans[k]]
      ensures forall i, k :: 0 <= i < |orphans| && k in old(deadlines) && k !in orphans && old(deadlines)[k] <= now ==>
        old(deadlines)[orphans[i]] <= old(deadlines)[k]
      ensures |orphans| <= batchSize
      ensures |orphans| < batchSize ==> forall k :: k in old(deadlines) && old(deadlines)[k] <= now ==> k in orphans
      ensures View() == old(View()).Recover(orphans, now, maxRetryCount)
      ensures pairs == old(View()).Report(orphans, now, maxRetryCount)
      ensures recovered + deadLettered == |orphans| && deadLettered == |pairs|
    {
      var js := RangeByScore(deadlines, now, batchSize);
      orphans := js;
      DueMeans(deadlines, now, batchSize, js);
      recovered, deadLettered, pairs := RecoverAll(js, now);
    }
  }
}
