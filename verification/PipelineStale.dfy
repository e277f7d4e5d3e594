/** Which metadata is harmful: a pop may store stale metadata with a job. The two conditions under which the promises
    about executions and results were proved are exact, pop by pop: after a pop that breaks one, a run in which all
    further metadata is right still breaks the promise. */
module PipelineStale {
  import opened Base
  import opened FairQueue
  import opened ReliableQueue
  import opened Results
  import opened SortedSet
  import opened Pipeline
  import opened PipelinePlaces
  import opened PipelineRetries
  import opened PipelineOnce
  import PipelineDrain
  import PipelineResults

  // ---- Runs with right metadata ----

  /** What a pop stores is the popped job's own retry count and group, as they are. */
  predicate RightEvent(s: State, e: Event) {
    e.By? && e.x.Pop? && s.At(e.a).Armed? && s.store.q.ready != [] ==>
      s.At(e.a).meta == TrueMeta(s.store, s.store.q.ready[0])
  }

  ghost predicate RightRun(c: Config, s: State, es: seq<Event>, s': State)
    decreases |es|
  {
    if es == [] then s == s'
    else
      && Enabled(c, s, es[0]) && Punctual(c, s, es[0]) && RightEvent(s, es[0])
      && RightRun(c, Next(c, s, es[0]), es[1..], s')
  }

  lemma {:induction false} RightIsSparing(c: Config, s: State, es: seq<Event>, s': State)
    requires RightRun(c, s, es, s')
    ensures SparingRun(c, s, es, s')
    decreases |es|
  {
    if es != [] {
      RightIsSparing(c, Next(c, s, es[0]), es[1..], s');
    }
  }

  lemma {:induction false} RightIsTagged(c: Config, s: State, es: seq<Event>, s': State)
    requires RightRun(c, s, es, s')
    ensures TaggedRun(c, s, es, s')
    decreases |es|
  {
    if es != [] {
      RightIsTagged(c, Next(c, s, es[0]), es[1..], s');
    }
  }

  lemma {:induction false} Append(c: Config, s0: State, es: seq<Event>, s: State, e: Event)
    requires RightRun(c, s0, es, s) && Enabled(c, s, e) && Punctual(c, s, e) && RightEvent(s, e)
    ensures RightRun(c, s0, es + [e], Next(c, s, e))
    decreases |es|
  {
    if es == [] {
      assert es + [e] == [e];
      assert RightRun(c, Next(c, s, e), [], Next(c, s, e));
    } else {
      Append(c, Next(c, s0, es[0]), es[1..], s, e);
      assert (es + [e])[1..] == es[1..] + [e];
    }
  }

  /** One more step of an actor. */
  lemma Do(c: Config, s0: State, es: seq<Event>, s: State, a: ActorId, x: Action) returns (es': seq<Event>, s': State)
    requires RightRun(c, s0, es, s) && Guard(c, s.store, s.At(a), x) && RightEvent(s, By(a, x))
    ensures s'.store == Effect(c, s.store, s.At(a), x)
    ensures forall b :: s'.At(b) == if b == a then Control(c, s.store, s.At(a), x) else s.At(b)
    ensures RightRun(c, s0, es', s')
  {
    Append(c, s0, es, s, By(a, x));
    es', s' := es + [By(a, x)], Next(c, s, By(a, x));
  }

  // ---- Chasing one job ----

  ghost predicate Calm(s: State) {
    forall a :: Executing(s.At(a)).None?
  }

  /** What is said of job j, and all groups, are as they were. */
  ghost predicate SameJob(s: State, s': State, j: JobId) {
    && s'.store.q.groups == s.store.q.groups && Runs(s'.store, j) == Runs(s.store, j)
    && j in s.store.q.deadlines && j in s'.store.q.deadlines
    && j in s.store.q.meta && j in s'.store.q.meta && s'.store.q.meta[j] == s.store.q.meta[j]
  }

  ghost function Busy(s: State): set<ActorId> {
    set a | a in s.actors && Executing(s.actors[a]).Some?
  }

  lemma CrashIdles(c: Config, s: State, a: ActorId, s': State)
    requires Executing(s.At(a)).Some? && s'.store == Effect(c, s.store, s.At(a), Crash)
    requires forall b :: s'.At(b) == if b == a then Control(c, s.store, s.At(a), Crash) else s.At(b)
    ensures s'.store == s.store && |Busy(s')| < |Busy(s)|
  {
    forall b | b in Busy(s')
      ensures b in Busy(s) - {a}
    {
      assert s'.At(b) == s'.actors[b];
    }
    assert a in Busy(s);
    SubsetSize(Busy(s'), Busy(s) - {a});
  }

  /** All executing actors crash. */
  lemma {:induction false} AllCrash(c: Config, s0: State, es: seq<Event>, s: State) returns (es': seq<Event>, s': State)
    requires RightRun(c, s0, es, s)
    ensures RightRun(c, s0, es', s') && s'.store == s.store && Calm(s')
    decreases |Busy(s)|
  {
    es', s' := es, s;
    if a :| Executing(s.At(a)).Some? {
      es', s' := Do(c, s0, es, s, a, Crash);
      CrashIdles(c, s, a, s');
      es', s' := AllCrash(c, s0, es', s');
    }
  }

  /** With nobody executing, time may pass. */
  lemma Wait(c: Config, s0: State, es: seq<Event>, s: State, until: nat) returns (es': seq<Event>, s': State)
    requires RightRun(c, s0, es, s) && Calm(s)
    ensures RightRun(c, s0, es', s') && Calm(s')
    ensures s'.store == s.store.(now := s'.store.now) && s'.store.now >= until
  {
    var e := Tick(Max(0, until - s.store.now));
    Append(c, s0, es, s, e);
    es', s' := es + [e], Next(c, s, e);
    assert forall a :: s'.At(a) == s.At(a);
  }

  lemma RecoverSpares(c: Config, s: Store, js: seq<JobId>, j: JobId, s': Store)
    requires Guard(c, s, Idle, Recover(js)) && s' == Effect(c, s, Idle, Recover(js)) && NoDup(js)
    requires j !in js && j in s.q.meta && j in s.q.deadlines
    ensures j in s'.q.meta && s'.q.meta[j] == s.q.meta[j] && j in s'.q.deadlines
    ensures s'.q.groups == s.q.groups && s'.runs == s.runs && s'.now == s.now && s'.q.deadlines[j] == s.q.deadlines[j]
  {
    RecoverKeepsMeta(s.q, js, s.now, c.orphanMaxRetry, j);
    RecoverKeepsDeadlines(s.q, js, s.now, c.orphanMaxRetry, j);
    PipelineResults.RecoverGroups(s.q, js, s.now, c.orphanMaxRetry);
  }

  lemma {:induction false} RecoverKeepsMeta(q: Queues, js: seq<JobId>, now: nat, maxRetry: nat, j: JobId)
    requires j !in js && j in q.meta
    ensures var m := q.Recover(js, now, maxRetry).meta; j in m && m[j] == q.meta[j]
  {
    if js != [] {
      RecoverKeepsMeta(q, js[..|js| - 1], now, maxRetry, j);
    }
  }

  lemma BatchNoDup(m: map<JobId, nat>, now: nat, limit: nat, js: seq<JobId>)
    requires DueBatch(m, now, limit, js)
    ensures NoDup(js)
  {
    assert forall i, k :: 0 <= i < k < |js| ==> Earlier(m, js[i], js[k]);
  }

  lemma RecoverShrinks(q: Queues, js: seq<JobId>, now: nat, maxRetry: nat)
    requires NoDup(js) && js != [] && js[0] in q.deadlines
    ensures |q.Recover(js, now, maxRetry).deadlines| < |q.deadlines|
  {
    var q' := q.Recover(js, now, maxRetry);
    forall i | i in q'.deadlines
      ensures i in q.deadlines.Keys - {js[0]}
    {
      RecoverFrame(q, js, now, maxRetry, i);
    }
    SubsetSize(q'.deadlines.Keys, q.deadlines.Keys - {js[0]});
  }

  /** A batch without the job in question leaves fewer entries in flight. */
  lemma RecoversOthers(c: Config, s0: State, es: seq<Event>, s: State, a: ActorId, js: seq<JobId>, j: JobId)
    returns (es': seq<Event>, s': State)
    requires RightRun(c, s0, es, s) && Calm(s) && s.At(a).Idle? && Guard(c, s.store, Idle, Recover(js))
    requires NoDup(js) && js != [] && j !in js && j in s.store.q.deadlines && j in s.store.q.meta
    ensures RightRun(c, s0, es', s') && Calm(s') && SameJob(s, s', j)
    ensures s'.store.now == s.store.now && s'.store.q.deadlines[j] == s.store.q.deadlines[j]
    ensures |s'.store.q.deadlines| < |s.store.q.deadlines|
  {
    es', s' := Do(c, s0, es, s, a, Recover(js));
    RecoverSpares(c, s.store, js, j, s'.store);
    RecoverShrinks(s.store.q, js, s.store.now, c.orphanMaxRetry);
  }

  /** Recovery goes on until an overdue job's batch is next. */
  lemma {:induction false} NextBatch(c: Config, s0: State, es: seq<Event>, s: State, j: JobId)
    returns (es': seq<Event>, s': State, a: ActorId, js: seq<JobId>)
    requires RightRun(c, s0, es, s) && Calm(s) && c.orphanBatchSize >= 1
    requires j in s.store.q.deadlines && s.store.q.deadlines[j] <= s.store.now && j in s.store.q.meta
    ensures RightRun(c, s0, es', s') && Calm(s') && SameJob(s, s', j)
    ensures s'.At(a).Idle? && Guard(c, s'.store, Idle, Recover(js)) && j in js && NoDup(js)
    decreases |s.store.q.deadlines|
  {
    es', s' := es, s;
    a := PipelineDrain.IdleExists(s);
    js := DueExists(s.store.q.deadlines, s.store.now, c.orphanBatchSize);
    BatchNoDup(s.store.q.deadlines, s.store.now, c.orphanBatchSize, js);
    if j !in js {
      DueNotEmpty(s.store.q.deadlines, s.store.now, c.orphanBatchSize, js, j);
      var es1, s1 := RecoversOthers(c, s0, es, s, a, js, j);
      es', s', a, js := NextBatch(c, s0, es1, s1, j);
    }
  }

  /** Every job in flight can be brought before recovery. */
  lemma Overdue(c: Config, s: State, j: JobId) returns (es: seq<Event>, s': State, a: ActorId, js: seq<JobId>)
    requires c.orphanBatchSize >= 1 && j in s.store.q.deadlines && j in s.store.q.meta
    ensures RightRun(c, s, es, s') && Calm(s') && SameJob(s, s', j)
    ensures s'.At(a).Idle? && Guard(c, s'.store, Idle, Recover(js)) && j in js && NoDup(js)
  {
    var nothing: seq<Event> := [];
    var es1, s1 := AllCrash(c, s, nothing, s);
    var es2, s2 := Wait(c, s, es1, s1, s1.store.q.deadlines[j]);
    es, s', a, js := NextBatch(c, s, es2, s2, j);
  }

  // ---- Executions ----

  lemma {:induction false} Survives(q: Queues, js: seq<JobId>, maxRetry: nat, j: JobId)
    requires j in js && q.RecoveryMeta(j).retry < maxRetry
    ensures j in Survivors(q, js, maxRetry)
  {
    var init, last := js[..|js| - 1], js[|js| - 1];
    assert js == init + [last];
    if j != last {
      Survives(q, init, maxRetry, j);
    }
  }

  /** An idle actor reads the metadata of the first ready job. */
  lemma Reads(c: Config, s0: State, es: seq<Event>, s: State, a: ActorId) returns (es': seq<Event>, s': State)
    requires RightRun(c, s0, es, s) && s.At(a).Idle? && s.store.q.ready != []
    ensures RightRun(c, s0, es', s') && s'.store == s.store
    ensures s'.At(a) == Armed(TrueMeta(s.store, s.store.q.ready[0]))
  {
    var es1, s1 := Do(c, s0, es, s, a, CheckReady);
    var es2, s2 := Do(c, s0, es1, s1, a, Peek);
    es', s' := Do(c, s0, es2, s2, a, ReadMeta);
  }

  lemma PopTakes(c: Config, s: State, a: ActorId, m: Meta, s': State)
    requires s.store.q.ready != [] && s.At(a) == Armed(m) && Enabled(c, s, By(a, Pop)) && s' == Next(c, s, By(a, Pop))
    ensures s'.store.q.ready == s.store.q.ready[1..]
    ensures s'.store.runs == s.store.runs[s.store.q.ready[0] := Runs(s.store, s.store.q.ready[0]) + 1]
  {
  }

  lemma PopsRight(c: Config, s0: State, es: seq<Event>, s: State, a: ActorId, m: Meta)
    returns (es': seq<Event>, s': State)
    requires RightRun(c, s0, es, s) && s.store.q.ready != [] && s.At(a) == Armed(m)
    requires m == TrueMeta(s.store, s.store.q.ready[0])
    ensures RightRun(c, s0, es', s') && s'.store.q.ready == s.store.q.ready[1..]
    ensures s'.store.runs == s.store.runs[s.store.q.ready[0] := Runs(s.store, s.store.q.ready[0]) + 1]
  {
    Append(c, s0, es, s, By(a, Pop));
    es', s' := es + [By(a, Pop)], Next(c, s, By(a, Pop));
    PopTakes(c, s, a, m, s');
  }

  /** Every ready job can be brought to its next execution. */
  lemma {:induction false} Executed(c: Config, s0: State, es: seq<Event>, s: State, j: JobId)
    returns (es': seq<Event>, s': State)
    requires RightRun(c, s0, es, s) && j in s.store.q.ready
    ensures RightRun(c, s0, es', s') && Runs(s'.store, j) == Runs(s.store, j) + 1
    decreases |s.store.q.ready|
  {
    var a := PipelineDrain.IdleExists(s);
    var m := TrueMeta(s.store, s.store.q.ready[0]);
    var es1, s1 := Reads(c, s0, es, s, a);
    es', s' := PopsRight(c, s0, es1, s1, a, m);
    if j != s.store.q.ready[0] {
      es', s' := Executed(c, s0, es', s', j);
    }
  }

  /** A job in flight whose entry shows a retry count below the orphan limit can be executed once more. */
  lemma OnceMore(c: Config, s: State, j: JobId) returns (es: seq<Event>, s': State)
    requires c.orphanBatchSize >= 1 && j in s.store.q.deadlines && j in s.store.q.meta
    requires s.store.q.meta[j].retry < c.orphanMaxRetry
    ensures RightRun(c, s, es, s') && Runs(s'.store, j) == Runs(s.store, j) + 1
  {
    var es1, s1, a, js := Overdue(c, s, j);
    var es2, s2 := Do(c, s, es1, s1, a, Recover(js));
    RecoverSplits(s1.store.q, js, s1.store.now, c.orphanMaxRetry);
    Survives(s1.store.q, js, c.orphanMaxRetry, j);
    es, s' := Executed(c, s, es2, s2, j);
  }

  /** The state after actor a pops. */
  ghost function AfterPop(c: Config, s: State, a: ActorId): State
    requires s.At(a).Armed?
  {
    Next(c, s, By(a, Pop))
  }

  ghost predicate BoundKept(c: Config, s: State, j: JobId) {
    forall es, s' :: SparingRun(c, s, es, s') ==> Runs(s'.store, j) <= MaxRetry(c) + 1
  }

  lemma PopFacts(c: Config, s: State, a: ActorId)
    requires s.At(a).Armed? && s.store.q.ready != []
    ensures Enabled(c, s, By(a, Pop)) && Punctual(c, s, By(a, Pop))
    ensures var j, t := s.store.q.ready[0], AfterPop(c, s, a).store;
      && j in t.q.deadlines && j in t.q.meta && t.q.meta[j] == s.At(a).meta
      && Runs(t, j) == Runs(s.store, j) + 1 && t.q.groups == s.store.q.groups
  {
  }

  /** Exactly the sparing pops keep the execution bound: what a pop stores is sparing if and only if, whatever
      follows with sparing pops only, the popped job keeps to the bound. */
  lemma SparingExactly(c: Config, now: nat, es: seq<Event>, s: State, a: ActorId)
    requires InTime(c) && c.orphanBatchSize >= 1 && SparingRun(c, Start(now), es, s)
    requires s.At(a).Armed? && s.store.q.ready != []
    ensures Sparing(c, s.store, s.store.q.ready[0], s.At(a).meta)
      <==> BoundKept(c, AfterPop(c, s, a), s.store.q.ready[0])
  {
    var j := s.store.q.ready[0];
    assert j in s.store.q.ready;
    StartConsistent(c, now);
    var L := RunCounted(c, Start(now), map[], es, s);
    assert JobCounts(c, s.store, L, j);
    PopFacts(c, s, a);
    if Sparing(c, s.store, j, s.At(a).meta) {
      StepKeeps(c, s, L, By(a, Pop));
      StepCounted(c, s, L, By(a, Pop));
      BoundFrom(c, AfterPop(c, s, a), MovedBy(c, s, By(a, Pop), L), j);
    } else {
      var more, s' := OnceMore(c, AfterPop(c, s, a), j);
      RightIsSparing(c, AfterPop(c, s, a), more, s');
    }
  }

  lemma BoundFrom(c: Config, s: State, L: Ledger, j: JobId)
    requires InTime(c) && Consistent(c, s, L) && Counted(c, s, L)
    ensures BoundKept(c, s, j)
  {
    forall es, s' | SparingRun(c, s, es, s')
      ensures Runs(s'.store, j) <= MaxRetry(c) + 1
    {
      var L' := RunCounted(c, s, L, es, s');
      if j in L' {
        assert JobCounts(c, s'.store, L', j);
      }
    }
  }

  // ---- Results ----

  lemma {:induction false} Reported(q: Queues, js: seq<JobId>, now: nat, maxRetry: nat, j: JobId)
    requires NoDup(js) && j in js && q.RecoveryMeta(j).retry >= maxRetry
    ensures (j, q.RecoveryMeta(j).group) in q.Report(js, now, maxRetry)
  {
    var init, last := js[..|js| - 1], js[|js| - 1];
    assert js == init + [last];
    if j == last {
      RecoverFrame(q, init, now, maxRetry, j);
    } else {
      Reported(q, init, now, maxRetry, j);
    }
  }

  /** A reported pair is recorded. */
  lemma {:induction false} Filed(c: Config, s0: State, es: seq<Event>, s: State, a: ActorId,
                                 pairs: seq<(JobId, GroupId)>, p: (JobId, GroupId))
    returns (es': seq<Event>, s': State)
    requires RightRun(c, s0, es, s) && s.At(a) == Reporting(pairs, false) && p in pairs
    ensures RightRun(c, s0, es', s') && s'.store.q.groups == s.store.q.groups && p.0 in Ids(s'.store, p.1)
    decreases |pairs|
  {
    RecordIds(c, s.store, s.At(a), p.1);
    es', s' := Do(c, s0, es, s, a, Record);
    if p != pairs[0] {
      es', s' := Do(c, s0, es', s', a, Acknowledge);
      es', s' := Filed(c, s0, es', s', a, pairs[1..], p);
    } else {
      assert (Ids(s.store, p.1) + [p.0])[|Ids(s.store, p.1)|] == p.0;
    }
  }

  /** A job in flight whose entry shows the orphan limit can get a result in the group the entry names. */
  lemma FiledUnder(c: Config, s: State, j: JobId) returns (es: seq<Event>, s': State)
    requires c.orphanBatchSize >= 1 && j in s.store.q.deadlines && j in s.store.q.meta
    requires s.store.q.meta[j].retry >= c.orphanMaxRetry
    ensures RightRun(c, s, es, s') && s'.store.q.groups == s.store.q.groups
    ensures j in Ids(s'.store, s.store.q.meta[j].group)
  {
    var es1, s1, a, js := Overdue(c, s, j);
    Reported(s1.store.q, js, s1.store.now, c.orphanMaxRetry, j);
    PipelineResults.RecoverGroups(s1.store.q, js, s1.store.now, c.orphanMaxRetry);
    var es2, s2 := Do(c, s, es1, s1, a, Recover(js));
    var pairs := s1.store.q.Report(js, s1.store.now, c.orphanMaxRetry);
    es, s' := Filed(c, s, es2, s2, a, pairs, (j, s.store.q.meta[j].group));
  }

  ghost predicate BooksKept(c: Config, s: State) {
    forall es, s', g :: TaggedRun(c, s, es, s') ==> OwnResults(s'.store, g)
  }

  /** A group's results are about different jobs of the group. */
  ghost predicate OwnResults(s: Store, g: GroupId) {
    NoDup(Ids(s, g)) && forall j :: j in Ids(s, g) ==> j in JobsOf(s, g)
  }

  /** Exactly the tagged pops keep the books: what a pop stores is tagged if and only if, whatever follows with
      tagged pops only, every group's results are about different jobs of the group. */
  lemma TaggedExactly(c: Config, now: nat, es: seq<Event>, s: State, a: ActorId)
    requires InTime(c) && c.orphanBatchSize >= 1 && TaggedRun(c, Start(now), es, s)
    requires s.At(a).Armed? && s.store.q.ready != []
    ensures OwnTag(c, s.store.q, s.store.q.ready[0], s.At(a).meta) <==> BooksKept(c, AfterPop(c, s, a))
  {
    var j := s.store.q.ready[0];
    StartBooks(c, now);
    var L := RunOnce(c, Start(now), map[], es, s);
    PopFacts(c, s, a);
    if OwnTag(c, s.store.q, j, s.At(a).meta) {
      StepBooks(c, s, L, By(a, Pop));
      BooksFrom(c, AfterPop(c, s, a), MovedBy(c, s, By(a, Pop), L));
    } else {
      var more, s' := FiledUnder(c, AfterPop(c, s, a), j);
      RightIsTagged(c, AfterPop(c, s, a), more, s');
      assert !OwnResults(s'.store, s.At(a).meta.group);
    }
  }

  lemma BooksFrom(c: Config, s: State, L: Ledger)
    requires InTime(c) && Books(c, s, L)
    ensures BooksKept(c, s)
  {
    forall es, s', g: GroupId | TaggedRun(c, s, es, s')
      ensures OwnResults(s'.store, g)
    {
      var L' := RunOnce(c, s, L, es, s');
      BooksAre(s'.store, L', g);
    }
  }
}
