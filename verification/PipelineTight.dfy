/** The execution bound is exact: no smaller one holds, even where every pop stores right metadata. */
module PipelineTight {
  import opened Base
  import opened FairQueue
  import opened ReliableQueue
  import opened SortedSet
  import opened Pipeline
  import opened PipelinePlaces
  import opened PipelineRetries
  import PipelineCounterexamples
  import PipelineStale

  /** A run of right metadata from the start that got to s. */
  ghost predicate Reached(c: Config, es: seq<Event>, s: State) {
    PipelineStale.RightRun(c, Start(0), es, s)
  }

  /** The one job there is waits on the ready list after n executions and as many counted retries, and all actors
      are idle. */
  ghost predicate Waiting(s: State, j: JobId, n: nat) {
    && s.store.q.ready == [j] && s.store.q.deadlines == map[] && s.store.nonReady == map[]
    && j in s.store.q.groups && Retries(s.store, j) == n && Runs(s.store, j) == n
    && forall a :: s.At(a).Idle?
  }

  lemma Go(c: Config, es: seq<Event>, s: State, e: Event) returns (es': seq<Event>, s': State)
    requires Reached(c, es, s) && Enabled(c, s, e) && Punctual(c, s, e) && PipelineStale.RightEvent(s, e)
    ensures s' == Next(c, s, e) && Reached(c, es', s')
  {
    PipelineStale.Append(c, Start(0), es, s, e);
    es', s' := es + [e], Next(c, s, e);
  }

  lemma Do(c: Config, es: seq<Event>, s: State, x: Action) returns (es': seq<Event>, s': State)
    requires Reached(c, es, s) && Guard(c, s.store, s.At(0), x) && PipelineStale.RightEvent(s, By(0, x))
    ensures s'.store == Effect(c, s.store, s.At(0), x)
    ensures forall b :: s'.At(b) == if b == 0 then Control(c, s.store, s.At(0), x) else s.At(b)
    ensures Reached(c, es', s')
  {
    es', s' := PipelineStale.Do(c, Start(0), es, s, 0, x);
  }

  // ---- Up to the ready list ----

  lemma Fetches(c: Config, g: GroupId, j: JobId) returns (es: seq<Event>, s: State)
    ensures Reached(c, es, s) && forall b :: s.At(b) == if b == 0 then Fetched(j) else Idle
    ensures s.store == Start(0).store.(fair := s.store.fair,
      q := Start(0).store.q.(groups := Start(0).store.q.groups[j := g], retries := Start(0).store.q.retries[j := 0]))
  {
    PipelineCounterexamples.SubmitAlone(FairQueue.EMPTY, c.alpha, 0, g, j);
    es, s := Go(c, [], Start(0), Submit(g, j, 0.0, HIGH));
    es, s := Do(c, es, s, Fetch(HIGH, g));
  }

  lemma Admitted(c: Config, es: seq<Event>, s: State, j: JobId) returns (es': seq<Event>, s': State)
    requires Reached(c, es, s) && HasRoom(c, s.store) && forall b :: s.At(b) == if b == 0 then Fetched(j) else Idle
    ensures Reached(c, es', s') && forall b :: s'.At(b).Idle?
    ensures s'.store == s.store.(q := s.store.q.(ready := s.store.q.ready + [j]))
  {
    es', s' := Do(c, es, s, CheckRoom);
    es', s' := Do(c, es', s', CheckRate(true));
    es', s' := Do(c, es', s', Push);
  }

  lemma Arrives(c: Config, g: GroupId, j: JobId) returns (es: seq<Event>, s: State)
    requires 1 <= c.readyQueueMaxSize
    ensures Reached(c, es, s) && Waiting(s, j, 0)
  {
    var es1, s1 := Fetches(c, g, j);
    es, s := Admitted(c, es1, s1, j);
  }

  // ---- One execution ----

  /** A worker reads the job's own metadata. */
  lemma Arms(c: Config, es: seq<Event>, s: State, j: JobId, n: nat) returns (es': seq<Event>, s': State)
    requires Reached(c, es, s) && Waiting(s, j, n)
    ensures Reached(c, es', s') && s'.store == s.store
    ensures forall b :: s'.At(b) == if b == 0 then Armed(TrueMeta(s.store, j)) else Idle
  {
    es', s' := Do(c, es, s, CheckReady);
    es', s' := Do(c, es', s', Peek);
    es', s' := Do(c, es', s', ReadMeta);
  }

  /** The job is popped with it. */
  lemma Pops(c: Config, es: seq<Event>, s: State, j: JobId, n: nat) returns (es': seq<Event>, s': State)
    requires Reached(c, es, s) && Waiting(s, j, n)
    ensures Reached(c, es', s') && forall b :: s'.At(b) == if b == 0 then Popped(j, s.store.now) else Idle
    ensures s'.store == s.store.(
      q := s.store.q.Pop(s.store.now, c.ackTimeoutMs, TrueMeta(s.store, j)), runs := s.store.runs[j := n + 1])
  {
    es', s' := Arms(c, es, s, j, n);
    es', s' := Do(c, es', s', Pop);
  }

  lemma Lost(c: Config, es: seq<Event>, s: State, j: JobId, n: nat) returns (es': seq<Event>, s': State)
    requires Reached(c, es, s) && Waiting(s, j, n)
    ensures Reached(c, es', s') && forall b :: s'.At(b).Idle?
    ensures s'.store == s.store.(now := s'.store.now,
      q := s.store.q.Pop(s.store.now, c.ackTimeoutMs, TrueMeta(s.store, j)), runs := s.store.runs[j := n + 1])
    ensures s'.store.now == s.store.now + c.ackTimeoutMs
  {
    es', s' := Pops(c, es, s, j, n);
    es', s' := Do(c, es', s', Crash);
    var t := s';
    es', s' := Go(c, es', t, Tick(c.ackTimeoutMs));
    assert forall b :: s'.At(b) == t.At(b);
  }

  /** The worker crashes, and recovery puts the job back. */
  lemma Recovered(c: Config, es: seq<Event>, s: State, j: JobId, n: nat) returns (es': seq<Event>, s': State)
    requires Reached(c, es, s) && Waiting(s, j, n) && n < c.orphanMaxRetry && 1 <= c.orphanBatchSize
    ensures Reached(c, es', s') && Waiting(s', j, n + 1)
  {
    var es1, s1 := Lost(c, es, s, j, n);
    assert s1.store.q.deadlines == map[j := s.store.now + c.ackTimeoutMs];
    PipelineCounterexamples.SoleOrphan(c, s1.store, j);
    es', s' := Do(c, es1, s1, Recover([j]));
    assert s'.store.q.deadlines == map[];
  }

  /** The processor throws, and the job is to be put back with one more retry. */
  lemma Throws(c: Config, es: seq<Event>, s: State, j: JobId, n: nat) returns (es': seq<Event>, s': State)
    requires Reached(c, es, s) && Waiting(s, j, n) && n < c.workerMaxRetry
    ensures Reached(c, es', s') && forall b :: s'.At(b) == if b == 0 then Requeueing(j) else Idle
    ensures s'.store.q.ready == [] && s'.store.q.deadlines == map[] && s'.store.nonReady == map[]
    ensures j in s'.store.q.groups && Retries(s'.store, j) == Runs(s'.store, j) == n + 1
  {
    es', s' := Pops(c, es, s, j, n);
    es', s' := Do(c, es', s', Load);
    es', s' := Do(c, es', s', Settle(Retryable, 0));
    assert s'.store.q.deadlines == map[];
    es', s' := Do(c, es', s', CountRetry);
  }

  lemma SoleDue(m: map<JobId, nat>, now: nat, limit: nat, j: JobId)
    requires m.Keys == {j} && m[j] <= now && 1 <= limit
    ensures DueBatch(m, now, limit, [j])
  {
  }

  lemma MovesOne(s: Store, j: JobId)
    ensures s.Move([j]) == s.MoveOne(j)
  {
    assert [j][..0] == [];
  }

  lemma WaitsOut(c: Config, es: seq<Event>, s: State, j: JobId) returns (es': seq<Event>, s': State)
    requires Reached(c, es, s) && forall b :: s.At(b) == if b == 0 then Requeueing(j) else Idle
    ensures Reached(c, es', s') && forall b :: s'.At(b).Idle?
    ensures s'.store == s.store.(now := s.store.now + c.baseBackoffMs,
      nonReady := s.store.nonReady[j := s.store.now + c.baseBackoffMs])
  {
    es', s' := Do(c, es, s, DelayFixed);
    var t := s';
    es', s' := Go(c, es', t, Tick(c.baseBackoffMs));
    assert forall b :: s'.At(b) == t.At(b);
  }

  lemma Dispatched(c: Config, es: seq<Event>, s: State, j: JobId) returns (es': seq<Event>, s': State)
    requires Reached(c, es, s) && (forall b :: s.At(b).Idle?) && HasRoom(c, s.store) && 1 <= c.dispatchBatchSize
    requires s.store.nonReady.Keys == {j} && s.store.nonReady[j] <= s.store.now
    ensures Reached(c, es', s') && (forall b :: s'.At(b).Idle?) && s'.store == s.store.MoveOne(j)
  {
    SoleDue(s.store.nonReady, s.store.now, c.dispatchBatchSize, j);
    MovesOne(s.store, j);
    es', s' := Do(c, es, s, DispatchCheck);
    es', s' := Do(c, es', s', Dispatch([j]));
  }

  /** The job waits its delay out and is moved back to the ready list. */
  lemma Delayed(c: Config, es: seq<Event>, s: State, j: JobId, n: nat) returns (es': seq<Event>, s': State)
    requires Reached(c, es, s) && forall b :: s.At(b) == if b == 0 then Requeueing(j) else Idle
    requires s.store.q.ready == [] && s.store.q.deadlines == map[] && s.store.nonReady == map[]
    requires j in s.store.q.groups && Retries(s.store, j) == Runs(s.store, j) == n
    requires 1 <= c.readyQueueMaxSize && 1 <= c.dispatchBatchSize
    ensures Reached(c, es', s') && Waiting(s', j, n)
  {
    var es1, s1 := WaitsOut(c, es, s, j);
    es', s' := Dispatched(c, es1, s1, j);
    assert s'.store.nonReady == map[];
  }

  /** One more round, by whichever limit leaves room for it. */
  lemma Round(c: Config, es: seq<Event>, s: State, j: JobId, n: nat) returns (es': seq<Event>, s': State)
    requires Reached(c, es, s) && Waiting(s, j, n) && n < MaxRetry(c)
    requires 1 <= c.readyQueueMaxSize && 1 <= c.dispatchBatchSize && 1 <= c.orphanBatchSize
    ensures Reached(c, es', s') && Waiting(s', j, n + 1)
  {
    if n < c.orphanMaxRetry {
      es', s' := Recovered(c, es, s, j, n);
    } else {
      es', s' := Throws(c, es, s, j, n);
      es', s' := Delayed(c, es', s', j, n + 1);
    }
  }

  lemma {:induction false} Rounds(c: Config, j: JobId, n: nat) returns (es: seq<Event>, s: State)
    requires n <= MaxRetry(c)
    requires 1 <= c.readyQueueMaxSize && 1 <= c.dispatchBatchSize && 1 <= c.orphanBatchSize
    ensures Reached(c, es, s) && Waiting(s, j, n)
  {
    if n == 0 {
      es, s := Arrives(c, 1, j);
    } else {
      es, s := Rounds(c, j, n - 1);
      es, s := Round(c, es, s, j, n - 1);
    }
  }

  lemma ExecutedOften(c: Config, j: JobId, n: nat) returns (es: seq<Event>, s: State)
    requires n <= MaxRetry(c) + 1
    requires 1 <= c.readyQueueMaxSize && 1 <= c.dispatchBatchSize && 1 <= c.orphanBatchSize
    ensures PipelineStale.RightRun(c, Start(0), es, s) && Runs(s.store, j) == n
  {
    es, s := [], Start(0);
    if n > 0 {
      es, s := Rounds(c, j, n - 1);
      es, s := Pops(c, es, s, j, n - 1);
    }
  }

  /** With limits in time, room for a job and batches of at least one, the larger of the two limits plus one is exactly
      how often a job can be executed: right metadata allows that many executions, and any fewer, but no more. */
  lemma ExecutedExactly(c: Config, j: JobId, n: nat)
    requires InTime(c) && 1 <= c.readyQueueMaxSize && 1 <= c.dispatchBatchSize && 1 <= c.orphanBatchSize
    ensures (exists es, s :: PipelineStale.RightRun(c, Start(0), es, s) && Runs(s.store, j) == n)
      <==> n <= c.workerMaxRetry + 1 || n <= c.orphanMaxRetry + 1
  {
    if es, s :| PipelineStale.RightRun(c, Start(0), es, s) && Runs(s.store, j) == n {
      PipelineStale.RightIsSparing(c, Start(0), es, s);
      ExecutionBound(c, 0, es, s, j);
    }
    if n <= c.workerMaxRetry + 1 || n <= c.orphanMaxRetry + 1 {
      var es, s := ExecutedOften(c, j, n);
      assert exists es, s :: PipelineStale.RightRun(c, Start(0), es, s) && Runs(s.store, j) == n;
    }
  }
}
