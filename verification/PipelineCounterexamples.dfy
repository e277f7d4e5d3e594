/** Runs beyond the hypotheses, and what they say about the configuration. A worker reads a job's metadata and pops
    in separate commands, so it may store the metadata of an earlier reading, or of another job, with the job it
    gets: then there is no execution bound unless the orphan limit is zero, and no one result per job under any
    limits. And a worker that may outlast its deadline may lose its job. */
module PipelineCounterexamples {
  import opened Base
  import opened FairQueue
  import opened ReliableQueue
  import opened Results
  import opened SortedSet
  import opened Pipeline
  import opened PipelinePlaces
  import opened PipelineRetries
  import opened PipelineOnce
  import opened PipelineTermination
  import opened PipelineZeroLimit
  import PipelineResults

  /** A run from the start that got to s. */
  ghost predicate Reached(c: Config, es: seq<Event>, s: State) {
    PunctualRun(c, Start(0), es, s)
  }

  lemma {:induction false} Extend(c: Config, s0: State, es: seq<Event>, s: State, e: Event)
    requires PunctualRun(c, s0, es, s) && Enabled(c, s, e) && Punctual(c, s, e)
    ensures PunctualRun(c, s0, es + [e], Next(c, s, e))
    decreases |es|
  {
    if es == [] {
      assert es + [e] == [e];
      assert PunctualRun(c, Next(c, s, e), [], Next(c, s, e));
    } else {
      Extend(c, Next(c, s0, es[0]), es[1..], s, e);
      assert (es + [e])[1..] == es[1..] + [e];
    }
  }

  lemma Go(c: Config, es: seq<Event>, s: State, e: Event) returns (es': seq<Event>, s': State)
    requires Reached(c, es, s) && Enabled(c, s, e) && Punctual(c, s, e)
    ensures s' == Next(c, s, e) && Reached(c, es', s')
  {
    Extend(c, Start(0), es, s, e);
    es', s' := es + [e], Next(c, s, e);
  }

  lemma Do(c: Config, es: seq<Event>, s: State, a: ActorId, x: Action) returns (es': seq<Event>, s': State)
    requires Reached(c, es, s) && Guard(c, s.store, s.At(a), x)
    ensures s'.store == Effect(c, s.store, s.At(a), x)
    ensures forall b :: s'.At(b) == if b == a then Control(c, s.store, s.At(a), x) else s.At(b)
    ensures Reached(c, es', s')
  {
    es', s' := Go(c, es, s, By(a, x));
  }

  /** Nobody executes anything, and nothing is in flight. */
  ghost predicate Calm(s: State) {
    (forall a :: Executing(s.At(a)).None?) && s.store.q.deadlines == map[]
  }

  ghost predicate SameActors(s: State, s': State) {
    forall b :: s'.At(b) == s.At(b)
  }

  lemma SubmitAlone(fair: Fair, alpha: real, now: nat, g: GroupId, j: JobId)
    requires fair.scores == map[] && fair.Pending(g) == []
    ensures var f := fair.Enqueue(alpha, now, g, j, 0.0, HIGH);
      && f.Serves(HIGH, g) && f.Pending(g) == [j]
      && f.Dequeue(alpha, now, HIGH, g).scores == map[]
      && f.Dequeue(alpha, now, HIGH, g).lists == fair.lists[g := []]
      && f.Dequeue(alpha, now, HIGH, g).meta == f.meta == fair.meta[g := f.MetaOf(g)]
  {
    var f := fair.Enqueue(alpha, now, g, j, 0.0, HIGH);
    assert f.scores.Keys == {(HIGH, g)};
  }

  /** A job submitted to an otherwise drained queue is fetched. */
  lemma Fetches(c: Config, es: seq<Event>, s: State, g: GroupId, j: JobId) returns (es': seq<Event>, s': State)
    requires Reached(c, es, s) && s.At(0).Idle?
    requires j !in s.store.q.groups && s.store.fair.scores == map[] && s.store.fair.Pending(g) == []
    ensures Reached(c, es', s') && (forall b :: s'.At(b) == if b == 0 then Fetched(j) else s.At(b))
    ensures s'.store == s.store.(fair := s'.store.fair,
      q := s.store.q.(groups := s.store.q.groups[j := g], retries := s.store.q.retries[j := 0]))
    ensures s'.store.fair.scores == map[] && s'.store.fair.lists == s.store.fair.lists[g := []]
    ensures s'.store.fair.MetaOf(g).total == s.store.fair.MetaOf(g).total + 1
    ensures forall h :: h != g ==> s'.store.fair.MetaOf(h) == s.store.fair.MetaOf(h)
  {
    SubmitAlone(s.store.fair, c.alpha, s.store.now, g, j);
    var es1, s1 := Go(c, es, s, Submit(g, j, 0.0, HIGH));
    assert s1.At(0) == s.At(0);
    es', s' := Do(c, es1, s1, 0, Fetch(HIGH, g));
    assert forall b :: b != 0 ==> s'.At(b) == s1.At(b) == s.At(b);
  }

  /** An admitted job gets onto the ready queue. */
  lemma Admitted(c: Config, es: seq<Event>, s: State, j: JobId) returns (es': seq<Event>, s': State)
    requires Reached(c, es, s) && s.At(0) == Fetched(j) && HasRoom(c, s.store)
    ensures Reached(c, es', s') && (forall b :: s'.At(b) == if b == 0 then Idle else s.At(b))
    ensures s'.store == s.store.(q := s.store.q.(ready := s.store.q.ready + [j]))
  {
    es', s' := Do(c, es, s, 0, CheckRoom);
    es', s' := Do(c, es', s', 0, CheckRate(true));
    es', s' := Do(c, es', s', 0, Push);
  }

  lemma Arrives(c: Config, es: seq<Event>, s: State, g: GroupId, j: JobId) returns (es': seq<Event>, s': State)
    requires Reached(c, es, s) && s.At(0).Idle? && 1 <= c.readyQueueMaxSize
    requires j !in s.store.q.groups && s.store.q.ready == [] && s.store.fair.scores == map[]
    requires s.store.fair.Pending(g) == []
    ensures Reached(c, es', s') && SameActors(s, s')
    ensures s'.store == s.store.(fair := s'.store.fair,
      q := s.store.q.(ready := [j], groups := s.store.q.groups[j := g], retries := s.store.q.retries[j := 0]))
    ensures s'.store.fair.scores == map[] && s'.store.fair.lists == s.store.fair.lists[g := []]
    ensures s'.store.fair.MetaOf(g).total == s.store.fair.MetaOf(g).total + 1
    ensures forall h :: h != g ==> s'.store.fair.MetaOf(h) == s.store.fair.MetaOf(h)
  {
    var es1, s1 := Fetches(c, es, s, g, j);
    es', s' := Admitted(c, es1, s1, j);
  }

  // ---- One job, handed out again and again ----

  lemma Arms(c: Config, es: seq<Event>, s: State, j: JobId, a: ActorId) returns (es': seq<Event>, s': State)
    requires Reached(c, es, s) && s.store.q.ready == [j] && s.At(a).Idle?
    ensures Reached(c, es', s') && s'.store == s.store
    ensures forall b :: s'.At(b) == if b == a then Armed(TrueMeta(s.store, j)) else s.At(b)
  {
    var es1, s1 := Do(c, es, s, a, CheckReady);
    var es2, s2 := Do(c, es1, s1, a, Peek);
    es', s' := Do(c, es2, s2, a, ReadMeta);
  }

  /** Job j is on the ready list, and workers lo to hi have read its metadata when it had no retries. */
  ghost predicate Baited(s: State, j: JobId, m: Meta, lo: nat, hi: nat) {
    && s.store.q.ready == [j] && Calm(s) && m.retry == 0
    && (forall a :: lo <= a < hi ==> s.At(a) == Armed(m))
    && (forall a :: hi <= a ==> s.At(a).Idle?)
  }

  lemma Bait(c: Config, es: seq<Event>, s: State, j: JobId, m: Meta, hi: nat) returns (es': seq<Event>, s': State)
    requires Reached(c, es, s) && Baited(s, j, m, 0, hi) && m == TrueMeta(s.store, j)
    ensures Reached(c, es', s') && Baited(s', j, m, 0, hi + 1) && s'.store == s.store
  {
    es', s' := Arms(c, es, s, j, hi);
  }

  lemma {:induction false} BaitAll(c: Config, es: seq<Event>, s: State, j: JobId, m: Meta, n: nat)
    returns (es': seq<Event>, s': State)
    requires Reached(c, es, s) && Baited(s, j, m, 0, 0) && m == TrueMeta(s.store, j)
    ensures Reached(c, es', s') && Baited(s', j, m, 0, n) && s'.store == s.store
  {
    es', s' := es, s;
    if n > 0 {
      es', s' := BaitAll(c, es, s, j, m, n - 1);
      es', s' := Bait(c, es', s', j, m, n - 1);
    }
  }

  /** An overdue entry whose metadata is below the orphan limit goes back to the ready list. */
  lemma SoleOrphan(c: Config, s: Store, j: JobId)
    requires c.orphanBatchSize >= 1 && s.q.deadlines.Keys == {j} && s.q.deadlines[j] <= s.now
    requires j in s.q.meta && s.q.meta[j].retry < c.orphanMaxRetry
    ensures DueBatch(s.q.deadlines, s.now, c.orphanBatchSize, [j])
    ensures s.q.Recover([j], s.now, c.orphanMaxRetry) == s.q.Requeue(j)
    ensures s.q.Report([j], s.now, c.orphanMaxRetry) == []
  {
  }

  lemma Pops(c: Config, es: seq<Event>, s: State, j: JobId, m: Meta, a: ActorId) returns (es': seq<Event>, s': State)
    requires Reached(c, es, s) && s.store.q.ready == [j] && s.At(a) == Armed(m)
    ensures Reached(c, es', s') && (forall b :: s'.At(b) == if b == a then Popped(j, s.store.now) else s.At(b))
    ensures s'.store
      == s.store.(q := s.store.q.Pop(s.store.now, c.ackTimeoutMs, m), runs := s.store.runs[j := Runs(s.store, j) + 1])
  {
    es', s' := Do(c, es, s, a, Pop);
  }

  lemma PopAndCrash(c: Config, es: seq<Event>, s: State, j: JobId, m: Meta, a: ActorId)
    returns (es': seq<Event>, s': State)
    requires Reached(c, es, s) && s.store.q.ready == [j] && s.At(a) == Armed(m)
    ensures Reached(c, es', s') && (forall b :: s'.At(b) == if b == a then Idle else s.At(b))
    ensures s'.store
      == s.store.(q := s.store.q.Pop(s.store.now, c.ackTimeoutMs, m), runs := s.store.runs[j := Runs(s.store, j) + 1])
  {
    var es1, s1 := Pops(c, es, s, j, m, a);
    es', s' := Do(c, es1, s1, a, Crash);
  }

  lemma TimesOut(c: Config, es: seq<Event>, s: State) returns (es': seq<Event>, s': State)
    requires Reached(c, es, s) && forall a :: Executing(s.At(a)).None?
    ensures Reached(c, es', s') && SameActors(s, s') && s'.store == s.store.(now := s.store.now + c.ackTimeoutMs)
  {
    es', s' := Go(c, es, s, Tick(c.ackTimeoutMs));
  }

  lemma Requeues(c: Config, es: seq<Event>, s: State, j: JobId, a: ActorId) returns (es': seq<Event>, s': State)
    requires c.orphanBatchSize >= 1 && Reached(c, es, s) && s.At(a).Idle?
    requires s.store.q.deadlines.Keys == {j} && s.store.q.deadlines[j] <= s.store.now
    requires j in s.store.q.meta && s.store.q.meta[j].retry < c.orphanMaxRetry
    ensures Reached(c, es', s') && SameActors(s, s')
    ensures s'.store == s.store.(q := s.store.q.Requeue(j), recovered := s'.store.recovered)
  {
    SoleOrphan(c, s.store, j);
    es', s' := Do(c, es, s, a, Recover([j]));
  }

  /** s' differs from s in the queues, the clock and the counts of runs and recoveries at most. */
  ghost predicate Elapsed(s: Store, s': Store) {
    s' == s.(now := s'.now, q := s'.q, runs := s'.runs, recovered := s'.recovered) && s'.q.groups == s.q.groups
  }

  /** A worker pops the only ready job, crashes, and recovery puts the job back by what the worker stored. */
  lemma Returns(c: Config, es: seq<Event>, s: State, j: JobId, m: Meta, a: ActorId) returns (es': seq<Event>, s': State)
    requires c.orphanBatchSize >= 1 && m.retry < c.orphanMaxRetry
    requires Reached(c, es, s) && s.store.q.ready == [j] && Calm(s) && s.At(a) == Armed(m)
    ensures Reached(c, es', s') && s'.store.q.ready == [j] && s'.store.q.deadlines == map[]
    ensures forall b :: s'.At(b) == if b == a then Idle else s.At(b)
    ensures Runs(s'.store, j) == Runs(s.store, j) + 1 && Retries(s'.store, j) == Retries(s.store, j) + 1
    ensures Elapsed(s.store, s'.store)
  {
    var es1, s1 := PopAndCrash(c, es, s, j, m, a);
    assert s1.store.q.deadlines == map[j := s.store.now + c.ackTimeoutMs];
    var es2, s2 := TimesOut(c, es1, s1);
    es', s' := Requeues(c, es2, s2, j, a);
    assert s'.store.q.deadlines == map[];
  }

  lemma Cycle(c: Config, es: seq<Event>, s: State, j: JobId, m: Meta, lo: nat, hi: nat)
    returns (es': seq<Event>, s': State)
    requires c.orphanMaxRetry >= 1 && c.orphanBatchSize >= 1
    requires Reached(c, es, s) && Baited(s, j, m, lo, hi) && lo < hi
    ensures Reached(c, es', s') && Baited(s', j, m, lo + 1, hi) && s'.store.q.groups == s.store.q.groups
    ensures Runs(s'.store, j) == Runs(s.store, j) + 1
  {
    es', s' := Returns(c, es, s, j, m, lo);
  }

  lemma {:induction false} Cycles(c: Config, es: seq<Event>, s: State, j: JobId, m: Meta, lo: nat, hi: nat)
    returns (es': seq<Event>, s': State)
    requires c.orphanMaxRetry >= 1 && c.orphanBatchSize >= 1
    requires Reached(c, es, s) && Baited(s, j, m, lo, hi) && lo <= hi
    ensures Reached(c, es', s') && Runs(s'.store, j) == Runs(s.store, j) + hi - lo
    ensures s'.store.q.groups == s.store.q.groups
    decreases hi - lo
  {
    es', s' := es, s;
    if lo < hi {
      es', s' := Cycle(c, es, s, j, m, lo, hi);
      es', s' := Cycles(c, es', s', j, m, lo + 1, hi);
    }
  }

  /** With an orphan limit above zero there is no execution bound at all: for every n some punctual run hands its
      only job to a worker n times. */
  lemma NoBoundWhenStale(c: Config, n: nat)
    requires c.orphanMaxRetry >= 1 && c.orphanBatchSize >= 1 && c.readyQueueMaxSize >= 1
    ensures exists es, s :: PunctualRun(c, Start(0), es, s) && Runs(s.store, 1) == n && s.store.q.groups == map[1 := 1]
  {
    var es: seq<Event>, s := [], Start(0);
    es, s := Arrives(c, es, s, 1, 1);
    es, s := BaitAll(c, es, s, 1, Meta(0, 1), n);
    es, s := Cycles(c, es, s, 1, Meta(0, 1), 0, n);
  }

  ghost predicate AlwaysBounded(c: Config) {
    forall es, s, j :: PunctualRun(c, Start(0), es, s) ==> Runs(s.store, j) <= MaxRetry(c) + 1
  }

  /** The execution bound holds in all punctual runs, whatever the workers store, if and only if the orphan limit
      is zero. */
  lemma BoundedExactly(c: Config)
    requires c.orphanBatchSize >= 1 && c.readyQueueMaxSize >= 1
    ensures AlwaysBounded(c) <==> c.orphanMaxRetry == 0
  {
    if c.orphanMaxRetry == 0 {
      forall es, s, j: JobId | PunctualRun(c, Start(0), es, s)
        ensures Runs(s.store, j) <= MaxRetry(c) + 1
      {
        ZeroLimitBound(c, 0, es, s, j);
      }
    } else {
      NoBoundWhenStale(c, MaxRetry(c) + 2);
      var es, s :| PunctualRun(c, Start(0), es, s) && Runs(s.store, 1) == MaxRetry(c) + 2;
    }
  }

  lemma EventRuns(c: Config, s: State, e: Event, j: JobId)
    requires Enabled(c, s, e)
    ensures Runs(Next(c, s, e).store, j) <= Runs(s.store, j) + Moving(s, e)
  {
    if e.By? {
      ActionRuns(c, s.store, s.At(e.a), e.x, j);
    }
  }

  /** Only a pop adds an execution. */
  lemma ActionRuns(c: Config, s: Store, k: Ctl, x: Action, j: JobId)
    requires Guard(c, s, k, x)
    ensures Runs(Effect(c, s, k, x), j) <= Runs(s, j) + if x.Pop? && s.q.ready != [] then 1 else 0
  {
    if x.Dispatch? {
      PipelineResults.MoveFrame(s, x.js);
    }
  }

  /** Every execution takes a step that moves a job. */
  lemma {:induction false} RunsAreMoves(c: Config, s: State, es: seq<Event>, s': State, j: JobId)
    requires PunctualRun(c, s, es, s')
    ensures Runs(s'.store, j) <= Runs(s.store, j) + JobMoves(c, s, es)
    decreases |es|
  {
    if es != [] {
      EventRuns(c, s, es[0], j);
      RunsAreMoves(c, Next(c, s, es[0]), es[1..], s', j);
    }
  }

  ghost predicate AlwaysTerminates(c: Config) {
    forall es, s :: PunctualRun(c, Start(0), es, s) ==> JobMoves(c, Start(0), es) <= MovesPerJob(c) * |s.store.q.groups|
  }

  lemma TooManyMoves(c: Config, n: nat) returns (es: seq<Event>, s: State)
    requires c.orphanMaxRetry >= 1 && c.orphanBatchSize >= 1 && c.readyQueueMaxSize >= 1
    ensures PunctualRun(c, Start(0), es, s) && |s.store.q.groups| == 1 && JobMoves(c, Start(0), es) > n
  {
    NoBoundWhenStale(c, n + 1);
    es, s :| PunctualRun(c, Start(0), es, s) && Runs(s.store, 1) == n + 1 && s.store.q.groups == map[1 := 1];
    RunsAreMoves(c, Start(0), es, s, 1);
  }

  /** So does the bound on the steps that move jobs. */
  lemma TerminatesExactly(c: Config)
    requires c.orphanBatchSize >= 1 && c.readyQueueMaxSize >= 1
    ensures AlwaysTerminates(c) <==> c.orphanMaxRetry == 0
  {
    if c.orphanMaxRetry == 0 {
      forall es, s | PunctualRun(c, Start(0), es, s)
        ensures JobMoves(c, Start(0), es) <= MovesPerJob(c) * |s.store.q.groups|
      {
        ZeroLimitTerminates(c, 0, es, s);
      }
    } else {
      var es, s := TooManyMoves(c, MovesPerJob(c));
    }
  }

  // ---- Another group's job ----

  /** A worker executes the only ready job to its end and stops short of recording the result. */
  lemma Executes(c: Config, es: seq<Event>, s: State, j: JobId, m: Meta, a: ActorId)
    returns (es': seq<Event>, s': State)
    requires Reached(c, es, s) && s.store.q.ready == [j] && s.At(a) == Armed(m) && j in s.store.q.groups
    requires s.store.q.deadlines == map[]
    ensures Reached(c, es', s') && (forall b :: s'.At(b) == if b == a then Completing(j, true, 0) else s.At(b))
    ensures s'.store == s.store.(q := s'.store.q, runs := s'.store.runs)
    ensures s'.store.q == s.store.q.(ready := [], meta := s'.store.q.meta)
  {
    var es1, s1 := Pops(c, es, s, j, m, a);
    var es2, s2 := Loads(c, es1, s1, j, a);
    es', s' := Settles(c, es2, s2, j, a);
    assert s1.store.q.deadlines == map[j := s.store.now + c.ackTimeoutMs];
    assert s1.store.q.deadlines - {j} == map[];
  }

  lemma Settles(c: Config, es: seq<Event>, s: State, j: JobId, a: ActorId) returns (es': seq<Event>, s': State)
    requires Reached(c, es, s) && s.At(a).Running? && s.At(a).job == j
    ensures Reached(c, es', s') && (forall b :: s'.At(b) == if b == a then Completing(j, true, 0) else s.At(b))
    ensures s'.store == s.store.(q := s.store.q.Remove(j))
  {
    es', s' := Do(c, es, s, a, Settle(Success, 0));
  }

  lemma Buries(c: Config, es: seq<Event>, s: State, j: JobId, m: Meta, a: ActorId) returns (es': seq<Event>, s': State)
    requires c.orphanBatchSize >= 1 && Reached(c, es, s) && s.At(a).Idle? && m.retry >= c.orphanMaxRetry
    requires s.store.q.deadlines.Keys == {j} && s.store.q.deadlines[j] <= s.store.now
    requires j in s.store.q.meta && s.store.q.meta[j] == m
    ensures Reached(c, es', s') && s'.At(a) == Reporting([(j, m.group)], true)
    ensures s'.store.tallies == s.store.tallies[m.group := s.store.Tally(m.group).Record(Outcome(j, false, 0))]
    ensures s'.store.fair == s.store.fair && s'.store.q.groups == s.store.q.groups
  {
    assert DueBatch(s.store.q.deadlines, s.store.now, c.orphanBatchSize, [j]);
    assert [j][..0] == [];
    assert s.store.q.Recover([j], s.store.now, c.orphanMaxRetry) == s.store.q.Bury(j, m, s.store.now);
    assert s.store.q.Report([j], s.store.now, c.orphanMaxRetry) == [(j, m.group)];
    var es1, s1 := Do(c, es, s, a, Recover([j]));
    es', s' := Do(c, es1, s1, a, Record);
  }

  /** The only ready job comes back from n workers that crash in turn, each with right metadata. */
  lemma {:induction false} Returned(c: Config, es: seq<Event>, s: State, j: JobId, n: nat, a: ActorId)
    returns (es': seq<Event>, s': State)
    requires c.orphanBatchSize >= 1 && Retries(s.store, j) + n <= c.orphanMaxRetry
    requires Reached(c, es, s) && s.store.q.ready == [j] && Calm(s) && s.At(a).Idle?
    ensures Reached(c, es', s') && s'.store.q.ready == [j] && SameActors(s, s') && s'.store.q.deadlines == map[]
    ensures Retries(s'.store, j) == Retries(s.store, j) + n && Elapsed(s.store, s'.store)
    decreases n
  {
    es', s' := es, s;
    if n > 0 {
      var es1, s1 := Arms(c, es, s, j, a);
      var es2, s2 := Returns(c, es1, s1, j, TrueMeta(s.store, j), a);
      es', s' := Returned(c, es2, s2, j, n - 1, a);
    }
  }

  /** Job 1 of group 1 is ready, at the orphan limit. */
  lemma AtTheLimit(c: Config) returns (es: seq<Event>, s: State)
    requires c.readyQueueMaxSize >= 1 && c.orphanBatchSize >= 1
    ensures Reached(c, es, s) && Calm(s) && (forall a :: s.At(a).Idle?) && s.store.q.ready == [1]
    ensures TrueMeta(s.store, 1) == Meta(c.orphanMaxRetry, 1) && s.store.q.groups == map[1 := 1]
    ensures s.store.tallies == map[]
    ensures s.store.fair.scores == map[] && s.store.fair.Pending(2) == [] && s.store.fair.MetaOf(1).total == 1
  {
    var nothing: seq<Event> := [];
    var es1, s1 := Arrives(c, nothing, Start(0), 1, 1);
    es, s := Returned(c, es1, s1, 1, c.orphanMaxRetry, 1);
  }

  /** Worker 1 holds the metadata of job 1 of group 1 while worker 2 has finished that job without recording it. */
  lemma Outrun(c: Config) returns (es: seq<Event>, s: State)
    requires c.readyQueueMaxSize >= 1 && c.orphanBatchSize >= 1
    ensures Reached(c, es, s) && Calm(s) && s.At(0).Idle? && s.At(1) == Armed(Meta(c.orphanMaxRetry, 1))
    ensures s.store.q.ready == [] && s.store.q.groups == map[1 := 1] && s.store.tallies == map[]
    ensures s.store.fair.scores == map[] && s.store.fair.Pending(2) == [] && s.store.fair.MetaOf(1).total == 1
  {
    var m := Meta(c.orphanMaxRetry, 1);
    var es1, s1 := AtTheLimit(c);
    var es2, s2 := Arms(c, es1, s1, 1, 1);
    var es3, s3 := Arms(c, es2, s2, 1, 2);
    es, s := Executes(c, es3, s3, 1, m, 2);
  }

  /** Then worker 1 gets job 2 of group 2, and crashes. */
  lemma Misfiled(c: Config) returns (es: seq<Event>, s: State)
    requires c.readyQueueMaxSize >= 1 && c.orphanBatchSize >= 1
    ensures Reached(c, es, s) && s.At(1).Idle? && forall a :: Executing(s.At(a)).None?
    ensures s.store.q.deadlines.Keys == {2} && s.store.q.deadlines[2] == s.store.now + c.ackTimeoutMs
    ensures 2 in s.store.q.meta && s.store.q.meta[2] == Meta(c.orphanMaxRetry, 1)
    ensures s.store.tallies == map[] && s.store.q.groups == map[1 := 1, 2 := 2] && s.store.fair.MetaOf(1).total == 1
  {
    var es1, s1 := Outrun(c);
    var es2, s2 := Arrives(c, es1, s1, 2, 2);
    es, s := PopAndCrash(c, es2, s2, 2, Meta(c.orphanMaxRetry, 1), 1);
  }

  /** Under every configuration a group can be reported complete on another group's job alone: group 1's only
      result is about job 2, which belongs to group 2, and its own job 1 has none. */
  lemma WrongJobCompletes(c: Config)
    requires c.orphanBatchSize >= 1 && c.readyQueueMaxSize >= 1
    ensures exists es, s, a ::
      && PunctualRun(c, Start(0), es, s) && Enabled(c, s, By(a, Acknowledge))
      && PipelineResults.AwaitsAck(s.store.q.groups, s.At(a)) == Some(1) && s.store.fair.AckCompletes(1)
      && Ids(s.store, 1) == [2] && JobsOf(s.store, 1) == {1}
  {
    var es, s := Misfiled(c);
    var es1, s1 := TimesOut(c, es, s);
    var es2, s2 := Buries(c, es1, s1, 2, Meta(c.orphanMaxRetry, 1), 1);
    AppendIds(NO_RESULTS, Outcome(2, false, 0));
    assert Ids(s2.store, 1) == [2];
    forall j
      ensures j in JobsOf(s2.store, 1) <==> j in {1}
    {
    }
    assert JobsOf(s2.store, 1) == {1};
    assert PunctualRun(c, Start(0), es2, s2) && Enabled(c, s2, By(1, Acknowledge));
    assert PipelineResults.AwaitsAck(s2.store.q.groups, s2.At(1)) == Some(1);
    assert s2.store.fair.AckCompletes(1);
  }

  // ---- A worker that may outlast its deadline ----

  lemma Loads(c: Config, es: seq<Event>, s: State, j: JobId, a: ActorId) returns (es': seq<Event>, s': State)
    requires Reached(c, es, s) && s.At(a).Popped? && s.At(a).job == j && j in s.store.q.groups
    ensures Reached(c, es', s') && s'.store == s.store
    ensures forall b ::
      s'.At(b) == if b == a then Running(j, Retries(s.store, j), s.At(a).since, s.At(a).since) else s.At(b)
  {
    es', s' := Do(c, es, s, a, Load);
  }

  /** Worker 1, and nobody else, is executing job 1, and has set its deadline just now. */
  ghost predicate Working(c: Config, s: State, since: nat) {
    && s.At(1) == Running(1, 0, since, s.store.now) && s.At(0).Idle?
    && (forall a :: a != 1 ==> Executing(s.At(a)).None?)
    && s.store.q.ready == [] && s.store.q.dead == []
    && s.store.q.deadlines == map[1 := s.store.now + c.ackTimeoutMs]
  }

  lemma Occupied(c: Config) returns (es: seq<Event>, s: State)
    requires c.readyQueueMaxSize >= 1
    ensures Reached(c, es, s) && Working(c, s, s.store.now)
  {
    var nothing: seq<Event> := [];
    var es1, s1 := Arrives(c, nothing, Start(0), 1, 1);
    var es2, s2 := Arms(c, es1, s1, 1, 1);
    var es3, s3 := Pops(c, es2, s2, 1, Meta(0, 1), 1);
    es, s := Loads(c, es3, s3, 1, 1);
  }

  lemma Passes(c: Config, es: seq<Event>, s: State, since: nat, d: nat) returns (es': seq<Event>, s': State)
    requires Reached(c, es, s) && Working(c, s, since) && s.store.now + d <= Limit(c, s.At(1))
    ensures Reached(c, es', s') && SameActors(s, s') && s'.store == s.store.(now := s.store.now + d)
  {
    es', s' := Go(c, es, s, Tick(d));
  }

  /** The worker's next heartbeat comes when it is due. */
  lemma BeatsOnTime(c: Config, es: seq<Event>, s: State, since: nat) returns (es': seq<Event>, s': State)
    requires Reached(c, es, s) && Working(c, s, since) && s.store.now + BeatMs(c) < since + c.jobTimeoutMs
    ensures Reached(c, es', s') && Working(c, s', since) && s'.store.now == s.store.now + BeatMs(c)
  {
    var es1, s1 := Passes(c, es, s, since, BeatMs(c));
    es', s' := Do(c, es1, s1, 1, Heartbeat);
  }

  /** Recovery of the only job in flight puts it on the ready list or the dead-letter list. */
  lemma TakenFromFlight(c: Config, es: seq<Event>, s: State, j: JobId, a: ActorId) returns (es': seq<Event>, s': State)
    requires c.orphanBatchSize >= 1 && Reached(c, es, s) && s.At(a).Idle?
    requires s.store.q.deadlines.Keys == {j} && s.store.q.deadlines[j] <= s.store.now && s.store.q.ready == []
    requires s.store.q.dead == []
    ensures Reached(c, es', s') && forall b :: b != a ==> s'.At(b) == s.At(b)
    ensures s'.store.q.ready == [j] || (|s'.store.q.dead| == 1 && s'.store.q.dead[0].job == j)
  {
    assert DueBatch(s.store.q.deadlines, s.store.now, c.orphanBatchSize, [j]);
    assert [j][..0] == [];
    assert s.store.q.Recover([j], s.store.now, c.orphanMaxRetry)
      == s.store.q.RecoverOne(j, s.store.now, c.orphanMaxRetry);
    es', s' := Do(c, es, s, a, Recover([j]));
  }

  lemma SettlesLate(c: Config, es: seq<Event>, s: State, j: JobId, a: ActorId) returns (es': seq<Event>, s': State)
    requires Reached(c, es, s) && s.At(a).Running? && s.At(a).job == j
    ensures Reached(c, es', s') && s'.At(a) == Completing(j, true, 0)
    ensures s'.store.q.ready == s.store.q.ready && s'.store.q.dead == s.store.q.dead
  {
    es', s' := Do(c, es, s, a, Settle(Success, 0));
  }

  /** A worker whose limit is not before its deadline loses its job to recovery and settles it all the same. */
  lemma Overtaken(c: Config, es: seq<Event>, s: State, since: nat) returns (es': seq<Event>, s': State, p: Spot)
    requires c.orphanBatchSize >= 1 && Reached(c, es, s) && Working(c, s, since)
    requires s.store.now + c.ackTimeoutMs <= Limit(c, s.At(1))
    ensures Reached(c, es', s') && Occupies(s', 1, HandOf(1)) && Occupies(s', 1, p) && p != HandOf(1)
  {
    var es1, s1 := Passes(c, es, s, since, c.ackTimeoutMs);
    var es2, s2 := TakenFromFlight(c, es1, s1, 1, 0);
    es', s' := SettlesLate(c, es2, s2, 1, 1);
    p := if s'.store.q.ready == [1] then ReadyAt(0) else DeadAt(0);
  }

  /** The last heartbeat is the first, but for a time limit of three milliseconds. */
  lemma FewBeats(c: Config)
    requires BeatMs(c) < c.jobTimeoutMs
    ensures LastBeat(c) == if 2 * BeatMs(c) < c.jobTimeoutMs then 2 * BeatMs(c) else BeatMs(c)
    ensures 3 * BeatMs(c) >= c.jobTimeoutMs
  {
  }

  /** If the time limits do not keep deadlines ahead of their workers, recovery can take a job from under a worker
      that sends its heartbeats as they fall due, and the job ends up in two places. */
  lemma TwoPlacesWhenLate(c: Config) returns (es: seq<Event>, s: State, p: Spot)
    requires c.orphanBatchSize >= 1 && c.readyQueueMaxSize >= 1 && !InTime(c)
    ensures PunctualRun(c, Start(0), es, s) && Occupies(s, 1, HandOf(1)) && Occupies(s, 1, p) && p != HandOf(1)
  {
    var es1, s1 := Occupied(c);
    var since := s1.store.now;
    if s1.store.now + c.ackTimeoutMs > Limit(c, s1.At(1)) {
      FewBeats(c);
      es1, s1 := BeatsOnTime(c, es1, s1, since);
      if 2 * BeatMs(c) < c.jobTimeoutMs {
        es1, s1 := BeatsOnTime(c, es1, s1, since);
      }
    }
    es, s, p := Overtaken(c, es1, s1, since);
  }

  ghost predicate AlwaysOnePlace(c: Config) {
    forall es, s, j, p, p' :: PunctualRun(c, Start(0), es, s) && Occupies(s, j, p) && Occupies(s, j, p') ==> p == p'
  }

  /** The condition on the time limits is exact: jobs keep to one place in all runs whose workers beat and settle
      in time if and only if the limits keep deadlines ahead of their workers. */
  lemma OnePlaceExactly(c: Config)
    requires c.orphanBatchSize >= 1 && c.readyQueueMaxSize >= 1
    ensures AlwaysOnePlace(c) <==> InTime(c)
  {
    if InTime(c) {
      forall es, s, j, p, p' | PunctualRun(c, Start(0), es, s) && Occupies(s, j, p) && Occupies(s, j, p')
        ensures p == p'
      {
        ExactlyOnePlace(c, 0, es, s, j);
      }
    } else {
      var es, s, p := TwoPlacesWhenLate(c);
    }
  }
}
