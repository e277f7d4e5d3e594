/** Draining: the pipeline never gets stuck. From every reachable state, without new jobs and without further
    crashes, the actors can take every job to a final place. */
module PipelineDrain {
  import opened Base
  import opened FairQueue
  import opened ReliableQueue
  import opened SortedSet
  import opened Pipeline
  import opened PipelinePlaces
  import opened PipelineRetries
  import opened PipelineTermination
  import FairRuns
  import PipelineResults

  // ---- Every group with jobs is listed ----

  /** Commands that leave scores and lists alone. */
  lemma OthersFair(c: Config, s: Store, k: Ctl, x: Action)
    requires Guard(c, s, k, x) && !x.Fetch? && !x.Poll?
    ensures Effect(c, s, k, x).fair.scores == s.fair.scores && Effect(c, s, k, x).fair.lists == s.fair.lists
  {
    if x.Dispatch? {
      PipelineResults.MoveFrame(s, x.js);
    }
  }

  lemma ActionListed(c: Config, s: Store, k: Ctl, x: Action, s': Store)
    requires FairRuns.AllListed(s.fair) && Guard(c, s, k, x) && s' == Effect(c, s, k, x)
    ensures FairRuns.AllListed(s'.fair)
  {
    if x.Fetch? {
      FairRuns.FetchListed(s.fair, c.alpha, s.now, x.l, x.g);
    } else if x.Poll? {
      FairRuns.PollListed(s.fair);
    } else {
      OthersFair(c, s, k, x);
      FairRuns.SameListed(s.fair, s'.fair);
    }
  }

  lemma StepListed(c: Config, s: State, e: Event)
    requires FairRuns.AllListed(s.store.fair) && Enabled(c, s, e)
    ensures FairRuns.AllListed(Next(c, s, e).store.fair)
  {
    if e.By? {
      ActionListed(c, s.store, s.At(e.a), e.x, Next(c, s, e).store);
    } else if e.Submit? {
      FairRuns.SubmitListed(s.store.fair, c.alpha, s.store.now, e.g, e.j, e.base, e.l);
    }
  }

  // ---- Runs that only help ----

  /** Neither a new job nor a crash. */
  predicate Benign(e: Event) {
    !e.Submit? && !(e.By? && e.x.Crash?)
  }

  ghost predicate Helps(c: Config, s: State, es: seq<Event>, s': State) {
    SparingRun(c, s, es, s') && forall i :: 0 <= i < |es| ==> Benign(es[i])
  }

  lemma Uncons(c: Config, s: State, es: seq<Event>, s': State)
    requires es != [] && Helps(c, s, es, s')
    ensures Enabled(c, s, es[0]) && Punctual(c, s, es[0]) && SparingEvent(c, s, es[0]) && Benign(es[0])
    ensures Helps(c, Next(c, s, es[0]), es[1..], s')
  {
  }

  lemma Cons(c: Config, s: State, e: Event, es: seq<Event>, s': State)
    requires Enabled(c, s, e) && Punctual(c, s, e) && SparingEvent(c, s, e) && Benign(e)
    requires Helps(c, Next(c, s, e), es, s')
    ensures Helps(c, s, [e] + es, s')
  {
    assert ([e] + es)[1..] == es;
  }

  lemma {:induction false} Joined(c: Config, s: State, es: seq<Event>, m: State, more: seq<Event>, s': State)
    requires Helps(c, s, es, m) && Helps(c, m, more, s')
    ensures Helps(c, s, es + more, s')
    decreases |es|
  {
    if es == [] {
      assert es + more == more;
    } else {
      Uncons(c, s, es, m);
      Joined(c, Next(c, s, es[0]), es[1..], m, more, s');
      Cons(c, s, es[0], es[1..] + more, s');
      assert es + more == [es[0]] + (es[1..] + more);
    }
  }

  lemma {:induction false} JoinedMoves(c: Config, s: State, es: seq<Event>, m: State, more: seq<Event>)
    requires SparingRun(c, s, es, m)
    ensures JobMoves(c, s, es + more) == JobMoves(c, s, es) + JobMoves(c, m, more)
    decreases |es|
  {
    if es == [] {
      assert es + more == more;
    } else {
      var e, all := es[0], es + more;
      JoinedMoves(c, Next(c, s, e), es[1..], m, more);
      assert all[0] == e && all[1..] == es[1..] + more;
    }
  }

  lemma OneStep(c: Config, s: State, e: Event)
    requires Enabled(c, s, e) && Punctual(c, s, e) && SparingEvent(c, s, e) && Benign(e)
    ensures Helps(c, s, [e], Next(c, s, e)) && JobMoves(c, s, [e]) == Moving(s, e)
  {
    var s' := Next(c, s, e);
    assert SparingRun(c, s', [], s') && JobMoves(c, s', []) == 0;
    assert [e][1..] == [];
  }

  /** A run so far, with the number of job-moving steps it took. */
  lemma Then(c: Config, s0: State, es: seq<Event>, s: State, e: Event) returns (es': seq<Event>, s': State)
    requires Helps(c, s0, es, s) && Enabled(c, s, e) && Punctual(c, s, e) && SparingEvent(c, s, e) && Benign(e)
    ensures s' == Next(c, s, e) && Helps(c, s0, es', s') && JobMoves(c, s0, es') == JobMoves(c, s0, es) + Moving(s, e)
  {
    OneStep(c, s, e);
    Joined(c, s0, es, s, [e], Next(c, s, e));
    JoinedMoves(c, s0, es, s, [e]);
    es', s' := es + [e], Next(c, s, e);
  }

  lemma Nothing(c: Config, s: State)
    ensures Helps(c, s, [], s) && JobMoves(c, s, []) == 0
  {
  }

  // ---- Some job can always move ----

  /** The next command for a job in hand. */
  function NextOf(c: Config, k: Ctl): Action
    requires Hand(k).Some?
  {
    if k.Fetched? then CheckRoom
    else if k.Roomy? then CheckRate(true)
    else if k.Allowed? then Push
    else if k.Throttled? || k.Requeueing? then DelayFixed
    else if k.Completing? then Record
    else if k.Recorded? then Acknowledge
    else if k.retry < c.workerMaxRetry then CountRetry
    else Bury
  }

  lemma HandMoves(c: Config, s: State, a: ActorId) returns (es: seq<Event>, s': State)
    requires Hand(s.At(a)).Some?
    ensures Helps(c, s, es, s') && JobMoves(c, s, es) >= 1
  {
    Nothing(c, s);
    es, s' := Then(c, s, [], s, By(a, NextOf(c, s.At(a))));
  }

  lemma RunnerMoves(c: Config, s: State, a: ActorId) returns (es: seq<Event>, s': State)
    requires Executing(s.At(a)).Some? && s.At(a).job in s.store.q.groups
    ensures Helps(c, s, es, s') && JobMoves(c, s, es) >= 1
  {
    Nothing(c, s);
    es, s' := [], s;
    if s.At(a).Popped? {
      es, s' := Then(c, s, es, s', By(a, Load));
    }
    es, s' := Then(c, s, es, s', By(a, Settle(Success, 0)));
  }

  lemma ReadyMoves(c: Config, s: State, a: ActorId) returns (es: seq<Event>, s': State)
    requires s.At(a).Idle? && s.store.q.ready != []
    ensures Helps(c, s, es, s') && JobMoves(c, s, es) >= 1
  {
    Nothing(c, s);
    var es1, s1 := Then(c, s, [], s, By(a, CheckReady));
    var es2, s2 := Then(c, s, es1, s1, By(a, Peek));
    var es3, s3 := Then(c, s, es2, s2, By(a, ReadMeta));
    assert s3.store == s.store && s3.At(a) == Armed(TrueMeta(s.store, s.store.q.ready[0]));
    es, s' := Then(c, s, es3, s3, By(a, Pop));
  }

  lemma Waits(c: Config, s: State, until: nat) returns (es: seq<Event>, s': State)
    requires forall a :: Executing(s.At(a)).None?
    ensures Helps(c, s, es, s') && JobMoves(c, s, es) == 0
    ensures s'.actors == s.actors && s'.store == s.store.(now := s'.store.now) && s'.store.now >= until
  {
    Nothing(c, s);
    es, s' := Then(c, s, [], s, Tick(Max(0, until - s.store.now)));
  }

  lemma FlightMoves(c: Config, s: State, a: ActorId, j: JobId) returns (es: seq<Event>, s': State)
    requires c.orphanBatchSize >= 1 && s.At(a).Idle? && j in s.store.q.deadlines
    requires forall b :: Executing(s.At(b)).None?
    ensures Helps(c, s, es, s') && JobMoves(c, s, es) >= 1
  {
    var es1, s1 := Waits(c, s, s.store.q.deadlines[j]);
    var js := DueExists(s1.store.q.deadlines, s1.store.now, c.orphanBatchSize);
    DueNotEmpty(s1.store.q.deadlines, s1.store.now, c.orphanBatchSize, js, j);
    assert s1.At(a) == s.At(a);
    es, s' := Then(c, s, es1, s1, By(a, Recover(js)));
  }

  lemma DelayedMoves(c: Config, s: State, a: ActorId, j: JobId) returns (es: seq<Event>, s': State)
    requires c.dispatchBatchSize >= 1 && s.At(a).Idle? && j in s.store.nonReady
    requires |s.store.q.ready| < c.readyQueueMaxSize
    requires forall b :: Executing(s.At(b)).None?
    ensures Helps(c, s, es, s') && JobMoves(c, s, es) >= 1
  {
    var es1, s1 := Waits(c, s, s.store.nonReady[j]);
    var js := DueExists(s1.store.nonReady, s1.store.now, c.dispatchBatchSize);
    DueNotEmpty(s1.store.nonReady, s1.store.now, c.dispatchBatchSize, js, j);
    assert s1.At(a) == s.At(a);
    var es2, s2 := Then(c, s, es1, s1, By(a, DispatchCheck));
    assert s2.store == s1.store && s2.At(a) == Dispatching;
    es, s' := Then(c, s, es2, s2, By(a, Dispatch(js)));
  }

  lemma PendingMoves(c: Config, s: State, a: ActorId, g: GroupId) returns (es: seq<Event>, s': State)
    requires s.At(a).Idle? && FairRuns.AllListed(s.store.fair) && s.store.fair.Pending(g) != []
    ensures Helps(c, s, es, s') && JobMoves(c, s, es) >= 1
  {
    var f := s.store.fair;
    assert FairRuns.Listed(f, g);
    var k :| (k, g) in f.scores;
    FairRuns.BestExists(f, set x | x in f.scores && f.Pending(x.1) != [], (k, g));
    var l, h :| f.Serves(l, h);
    Nothing(c, s);
    es, s' := Then(c, s, [], s, By(a, Fetch(l, h)));
  }

  lemma IdleExists(s: State) returns (a: ActorId)
    ensures s.At(a).Idle?
  {
    var used := s.actors.Keys;
    a := 0;
    while used != {}
      invariant forall b :: b in s.actors && b !in used ==> b < a
      decreases used
    {
      var b :| b in used;
      used := used - {b};
      a := Max(a, b + 1);
    }
  }

  /** Places a job does not leave again. */
  predicate Final(p: Place) {
    p == Finished || p == Dead || p == Rejected || p == Lost
  }

  predicate Runnable(c: Config) {
    c.readyQueueMaxSize >= 1 && c.dispatchBatchSize >= 1 && c.orphanBatchSize >= 1
  }

  /** With nobody's hands full, a job outside the final places is in a queue, and some queue moves on. */
  lemma QueuesMove(c: Config, s: State, L: Ledger, j: JobId) returns (es: seq<Event>, s': State)
    requires Runnable(c) && Consistent(c, s, L) && FairRuns.AllListed(s.store.fair) && j in L && !Final(L[j])
    requires !L[j].Held?
    requires forall b :: Executing(s.At(b)).None?
    ensures Helps(c, s, es, s') && JobMoves(c, s, es) >= 1
  {
    var a := IdleExists(s);
    assert L[j] == OnReady ==> j in s.store.q.ready;
    if s.store.q.ready != [] {
      es, s' := ReadyMoves(c, s, a);
    } else if L[j] == Flying {
      es, s' := FlightMoves(c, s, a, j);
    } else if L[j] == Delayed {
      es, s' := DelayedMoves(c, s, a, j);
    } else if L[j] == Waiting {
      assert j in s.store.fair.Pending(s.store.q.GroupOf(j));
      es, s' := PendingMoves(c, s, a, s.store.q.GroupOf(j));
    } else {
      assert false;
    }
  }

  /** Not stuck: as long as some job is outside the final places, some job can move. */
  lemma SomeJobMoves(c: Config, s: State, L: Ledger, j: JobId) returns (es: seq<Event>, s': State)
    requires Runnable(c) && Consistent(c, s, L) && FairRuns.AllListed(s.store.fair) && j in L && !Final(L[j])
    ensures Helps(c, s, es, s') && JobMoves(c, s, es) >= 1
  {
    if a :| Executing(s.At(a)).Some? {
      assert OwnRun(c, s.store, L, s.At(a));
      es, s' := RunnerMoves(c, s, a);
    } else if L[j].Held? {
      assert OwnHand(L, L[j].a, s.At(L[j].a));
      es, s' := HandMoves(c, s, L[j].a);
    } else {
      es, s' := QueuesMove(c, s, L, j);
    }
  }

  // ---- Down to the last job ----

  /** A job in a final place is in no actor's care and no batch. */
  lemma FinalKept(c: Config, s: Store, L: Ledger, a: ActorId, k: Ctl, x: Action, j: JobId)
    requires Guard(c, s, k, x) && Seated(s, L, a, k, x) && j in L && Final(L[j])
    ensures j in Moved(c, s, a, k, x, L) && Final(Moved(c, s, a, k, x, L)[j])
  {
    if x.Dispatch? {
      LedgerMoveAt(L, x.js, j);
    } else if x.Recover? {
      LedgerRecoverAt(s.q, x.js, s.now, c.orphanMaxRetry, L, j);
    } else if j !in Touched(s, k, x) {
      OthersSamePlace(c, s, L, a, k, x, j);
    }
  }

  lemma StepFinal(c: Config, s: State, L: Ledger, e: Event, j: JobId)
    requires Consistent(c, s, L) && Enabled(c, s, e) && j in L && Final(L[j])
    ensures j in MovedBy(c, s, e, L) && Final(MovedBy(c, s, e, L)[j])
  {
    if e.By? {
      var k := s.At(e.a);
      assert OwnHand(L, e.a, k) && OwnRun(c, s.store, L, k) && Timely(c, s.store.now, k);
      Seating(c, s.store, L, e.a, k, e.x);
      FinalKept(c, s.store, L, e.a, k, e.x, j);
    }
  }

  predicate NoneNew(es: seq<Event>) {
    forall i :: 0 <= i < |es| ==> !es[i].Submit?
  }

  /** A run without new jobs spends weight on every job it moves, and leaves final places alone. */
  lemma {:induction false} RunMeasured(c: Config, s: State, L: Ledger, es: seq<Event>, s': State) returns (L': Ledger)
    requires InTime(c)
    requires Consistent(c, s, L) && Counted(c, s, L) && SparingRun(c, s, es, s') && NoneNew(es)
    ensures Consistent(c, s', L') && Counted(c, s', L') && L'.Keys == L.Keys
    ensures Sum(Weights(c, s', L')) + JobMoves(c, s, es) <= Sum(Weights(c, s, L))
    ensures forall j :: j in L && Final(L[j]) ==> Final(L'[j])
    decreases |es|
  {
    L' := L;
    if es != [] {
      var m, M := Next(c, s, es[0]), MovedBy(c, s, es[0], L);
      StepKeeps(c, s, L, es[0]);
      StepCounted(c, s, L, es[0]);
      MeasureFalls(c, s, L, es[0]);
      SameJobs(c, s, es[0], m);
      forall j | j in L && Final(L[j])
        ensures j in M && Final(M[j])
      {
        StepFinal(c, s, L, es[0], j);
      }
      L' := RunMeasured(c, m, M, es[1..], s');
    }
  }

  lemma SameJobs(c: Config, s: State, e: Event, s': State)
    requires Enabled(c, s, e) && !e.Submit? && s' == Next(c, s, e)
    ensures s'.store.q.groups == s.store.q.groups
  {
    if e.By? {
      PipelineResults.GroupsKept(c, s.store, s.At(e.a), e.x);
    }
  }

  lemma {:induction false} Drains(c: Config, s: State, L: Ledger) returns (es: seq<Event>, s': State, L': Ledger)
    requires InTime(c) && Runnable(c)
    requires Consistent(c, s, L) && Counted(c, s, L) && FairRuns.AllListed(s.store.fair)
    ensures Helps(c, s, es, s') && Consistent(c, s', L') && forall j :: j in L' ==> Final(L'[j])
    decreases Sum(Weights(c, s, L))
  {
    if j :| j in L && !Final(L[j]) {
      var es1, s1 := SomeJobMoves(c, s, L, j);
      var L1 := RunMeasured(c, s, L, es1, s1);
      ReachedListed(c, s, es1, s1);
      var es2;
      es2, s', L' := Drains(c, s1, L1);
      Joined(c, s, es1, s1, es2, s');
      es := es1 + es2;
    } else {
      Nothing(c, s);
      es, s', L' := [], s, L;
    }
  }

  /** A position no job leaves. */
  predicate FinalSpot(p: Spot) {
    p.Done? || p.DeadAt? || p.TurnedAway? || p.Gone?
  }

  lemma {:induction false} ReachedListed(c: Config, s: State, es: seq<Event>, s': State)
    requires FairRuns.AllListed(s.store.fair) && SparingRun(c, s, es, s')
    ensures FairRuns.AllListed(s'.store.fair)
    decreases |es|
  {
    if es != [] {
      StepListed(c, s, es[0]);
      ReachedListed(c, Next(c, s, es[0]), es[1..], s');
    }
  }

  /** The pipeline can be drained: from every reachable state of a sparing run some sparing run, without new jobs
      and without crashes, takes every submitted job to a final place. */
  lemma PipelineDrains(c: Config, now: nat, before: seq<Event>, s: State) returns (es: seq<Event>, s': State)
    requires InTime(c) && Runnable(c)
    requires SparingRun(c, Start(now), before, s)
    ensures Helps(c, s, es, s')
    ensures forall j :: j in s'.store.q.groups ==> exists p :: FinalSpot(p) && Occupies(s', j, p)
  {
    StartConsistent(c, now);
    var L := RunCounted(c, Start(now), map[], before, s);
    ReachedListed(c, Start(now), before, s);
    var L';
    es, s', L' := Drains(c, s, L);
    forall j | j in s'.store.q.groups
      ensures exists p :: FinalSpot(p) && Occupies(s', j, p)
    {
      var p := SpotExists(c, s', L', j);
      SpotPlace(c, s', L', j, p);
      assert FinalSpot(p);
    }
  }
}
