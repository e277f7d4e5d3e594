/** Where a group's lifecycle can still go: no crash, expired lock or refused swap leaves it stuck. */
module LifecycleProgress {
  import opened Base
  import opened StateMachine
  import Lock
  import opened Lifecycle

  type ActorId = Lock.ActorId

  /** a can start a call: it is between calls, and the aggregation lock is free. */
  predicate Clear(s: State, a: ActorId) {
    s.At(a).Idle? && a !in s.lk.holders && s.lk.Free()
  }

  /** From any state a restart of a and some waiting bring a there; the group is as it was. */
  lemma Cleared(s0: State, a: ActorId, ttl: nat) returns (es: seq<Event>, s: State)
    ensures Run(s0, es, s, ttl) && Clear(s, a)
    ensures s.status == s0.status && s.results == s0.results && s.trues == s0.trues && s.failures == s0.failures
  {
    es, s := Go(s0, [], s0, By(a, Crash), ttl);
    if s.lk.lock.Some? {
      es, s := Go(s0, es, s, Tick(s.lk.lock.value.expires), ttl);
    }
  }

  /** One transition that needs no lock. */
  lemma Advance(s0: State, es: seq<Event>, s: State, a: ActorId, to: Status, ttl: nat)
      returns (es': seq<Event>, s': State)
    requires Run(s0, es, s, ttl) && Clear(s, a)
    requires s.status.Some? && IsValidTransition(s.status.value, to) && !RequiresLock(s.status.value, to)
    ensures Run(s0, es', s', ttl) && Clear(s', a)
    ensures s'.status == Some(to) && s'.results == s.results && s'.trues == s.trues
    ensures s'.failures == s.failures + if to == FAILED then 1 else 0
  {
    es', s' := Go(s0, es, s, By(a, Observe(to)), ttl);
    es', s' := Go(s0, es', s', By(a, Swap), ttl);
  }

  lemma FreeEdges()
    ensures IsValidTransition(CREATED, DISPATCHED) && !RequiresLock(CREATED, DISPATCHED)
    ensures IsValidTransition(DISPATCHED, RUNNING) && !RequiresLock(DISPATCHED, RUNNING)
    ensures forall from :: from == CREATED || from == DISPATCHED || from == RUNNING ==>
      IsValidTransition(from, FAILED) && !RequiresLock(from, FAILED)
  {
    TableEdges(CREATED, DISPATCHED);
    LockMeans(CREATED, DISPATCHED);
    TableEdges(DISPATCHED, RUNNING);
    LockMeans(DISPATCHED, RUNNING);
    forall from | from == CREATED || from == DISPATCHED || from == RUNNING
      ensures IsValidTransition(from, FAILED) && !RequiresLock(from, FAILED)
    {
      TableEdges(from, FAILED);
      LockMeans(from, FAILED);
    }
  }

  /** A finalizer that holds the lock stores a report of all results, completes the group and answers true. */
  lemma Closes(s0: State, es: seq<Event>, s: State, a: ActorId, ttl: nat) returns (es': seq<Event>, s': State)
    requires Run(s0, es, s, ttl) && a in s.lk.holders
    requires s.At(a) == Aggregating(s.results) && s.status == Some(AGGREGATING)
    ensures Run(s0, es', s', ttl)
    ensures s'.status == Some(COMPLETED) && s'.report == Some(s.results) && s'.trues == s.trues + 1
  {
    es', s' := Go(s0, es, s, By(a, Aggregate(s.results)), ttl);
    es', s' := Go(s0, es', s', By(a, Swap), ttl);
    es', s' := Go(s0, es', s', By(a, Release), ttl);
  }

  /** A finalizer takes the lock and finds the group RUNNING, which it changes, or AGGREGATING. */
  lemma Opens(s0: State, es: seq<Event>, s: State, a: ActorId, ttl: nat) returns (es': seq<Event>, s': State)
    requires Run(s0, es, s, ttl) && Clear(s, a) && (s.status == Some(RUNNING) || s.status == Some(AGGREGATING))
    ensures Run(s0, es', s', ttl) && a in s'.lk.holders && s'.At(a) == Aggregating(s.results)
    ensures s'.status == Some(AGGREGATING) && s'.results == s.results && s'.trues == s.trues
  {
    es', s' := Enters(s0, es, s, a, ttl);
    es', s' := Go(s0, es', s', By(a, ReadMeta), ttl);
    if s.status == Some(RUNNING) {
      es', s' := Go(s0, es', s', By(a, Swap), ttl);
    }
  }

  /** From every state, reachable or not, whose status is not terminal, whatever locks are left behind: one actor can
      bring the group to COMPLETED, with a report of all its results and with the answer true. */
  lemma CompletionReachable(s: State, a: ActorId, ttl: nat)
    requires s.status.Some? && s.status != Some(COMPLETED) && s.status != Some(FAILED)
    ensures exists es, s' ::
      Run(s, es, s', ttl) && s'.status == Some(COMPLETED) && s'.report == Some(s.results) && s'.trues == s.trues + 1
  {
    var es, s' := Cleared(s, a, ttl);
    FreeEdges();
    if s.status == Some(CREATED) {
      es, s' := Advance(s, es, s', a, DISPATCHED, ttl);
    }
    if s'.status == Some(DISPATCHED) {
      es, s' := Advance(s, es, s', a, RUNNING, ttl);
    }
    assert s'.status.value.RUNNING? || s'.status.value.AGGREGATING?;
    es, s' := Opens(s, es, s', a, ttl);
    es, s' := Closes(s, es, s', a, ttl);
  }

  /** A watcher fails a group stuck in AGGREGATING, under the lock. */
  lemma FailAggregating(s0: State, es: seq<Event>, s: State, a: ActorId, ttl: nat)
      returns (es': seq<Event>, s': State)
    requires Run(s0, es, s, ttl) && Clear(s, a) && s.status == Some(AGGREGATING)
    ensures Run(s0, es', s', ttl) && s'.status == Some(FAILED) && s'.failures == s.failures + 1
    ensures s'.trues == s.trues
  {
    es', s' := Go(s0, es, s, By(a, Begin(ForceFail)), ttl);
    es', s' := Go(s0, es', s', By(a, TryLock), ttl);
    es', s' := Go(s0, es', s', By(a, ReadMeta), ttl);
    es', s' := Go(s0, es', s', By(a, Swap), ttl);
    es', s' := Go(s0, es', s', By(a, Release), ttl);
  }

  /** And it can be failed, by one swap that counts as a failure and makes no finalize call answer true. */
  lemma FailureReachable(s: State, a: ActorId, ttl: nat)
    requires s.status.Some? && s.status != Some(COMPLETED) && s.status != Some(FAILED)
    ensures exists es, s' ::
      Run(s, es, s', ttl) && s'.status == Some(FAILED) && s'.failures == s.failures + 1 && s'.trues == s.trues
  {
    var es, s' := Cleared(s, a, ttl);
    FreeEdges();
    if s.status == Some(AGGREGATING) {
      es, s' := FailAggregating(s, es, s', a, ttl);
    } else {
      es, s' := Advance(s, es, s', a, FAILED, ttl);
    }
  }
}
