/** Two bounds that survive every interleaving: the size of the ready queue, and the congestion counters. */
module PipelineBounds {
  import opened Base
  import opened FairQueue
  import opened ReliableQueue
  import opened SortedSet
  import opened Pipeline
  import opened PipelinePlaces
  import PipelineResults

  // ---- The ready queue ----

  /** Actors that found room and have not yet moved their batch. */
  ghost function PastCheck(s: State): set<ActorId> {
    set a | a in s.actors && s.actors[a].Dispatching?
  }

  predicate OnlyDispatch(ds: set<ActorId>, e: Event) {
    e.By? && e.x.DispatchCheck? ==> e.a in ds
  }

  ghost predicate ReadyBounded(c: Config, ds: set<ActorId>, s: State) {
    && PastCheck(s) <= ds
    && |s.store.q.ready| + |PastCheck(s)| * c.dispatchBatchSize
         <= c.readyQueueMaxSize + |ds| * c.dispatchBatchSize + s.store.recovered
  }

  lemma {:induction js} MoveSize(s: Store, js: seq<JobId>)
    ensures |s.Move(js).q.ready| == |s.q.ready| + |js|
  {
  }

  /** How an action changes the size, in the four cases that matter. */
  predicate SizeStep(c: Config, s: Store, k: Ctl, s': Store, k': Ctl) {
    && (k'.Dispatching? ==> HasRoom(c, s) && |s'.q.ready| == |s.q.ready| && s'.recovered == s.recovered)
    && (k.Dispatching? && !k'.Dispatching? ==>
         |s'.q.ready| <= |s.q.ready| + c.dispatchBatchSize && s'.recovered == s.recovered)
    && (!k.Dispatching? && !k'.Dispatching? ==>
         || (|s'.q.ready| <= c.readyQueueMaxSize && s'.recovered == s.recovered)
         || |s'.q.ready| + s.recovered <= |s.q.ready| + s'.recovered)
  }

  lemma SupplySize(c: Config, s: Store, k: Ctl, x: Action)
    requires Guard(c, s, k, x) && Supplies(x)
    ensures SizeStep(c, s, k, Effect(c, s, k, x), Control(c, s, k, x))
  {
    if x.Dispatch? {
      PipelineResults.MoveFrame(s, x.js);
      MoveSize(s, x.js);
    }
  }

  lemma WorkSize(c: Config, s: Store, k: Ctl, x: Action)
    requires Guard(c, s, k, x) && !Supplies(x)
    ensures SizeStep(c, s, k, Effect(c, s, k, x), Control(c, s, k, x))
  {
    if x.Recover? {
      RecoverSplits(s.q, x.js, s.now, c.orphanMaxRetry);
    }
  }

  lemma OnlyCheckEnters(c: Config, s: Store, k: Ctl, x: Action)
    requires Guard(c, s, k, x) && Control(c, s, k, x).Dispatching?
    ensures x.DispatchCheck?
  {
  }

  /** Only a check with room leads to a dispatch, and only a dispatch and recovery may exceed the maximum. */
  lemma ActionSize(c: Config, s: Store, k: Ctl, x: Action)
    requires Guard(c, s, k, x)
    ensures SizeStep(c, s, k, Effect(c, s, k, x), Control(c, s, k, x))
    ensures Control(c, s, k, x).Dispatching? ==> x.DispatchCheck?
  {
    if Supplies(x) {
      SupplySize(c, s, k, x);
    } else {
      WorkSize(c, s, k, x);
    }
    if Control(c, s, k, x).Dispatching? {
      OnlyCheckEnters(c, s, k, x);
    }
  }

  lemma PastCheckExcept(s: State, a: ActorId)
    ensures |PastCheck(s)| == |PastCheck(s) - {a}| + if s.At(a).Dispatching? then 1 else 0
  {
  }

  lemma PastCheckStep(s: State, a: ActorId, t: Store, k': Ctl)
    ensures PastCheck(State(t, s.actors[a := k'])) - {a} == PastCheck(s) - {a}
  {
  }

  /** The bookkeeping of one action: `rest` other actors are past their check, this one was or is. */
  lemma Bookkeeping(size: nat, size': nat, rest: nat, wasPast: bool, isPast: bool, n: nat, batch: nat, max: nat,
                    rec: nat, rec': nat)
    requires size + (rest + if wasPast then 1 else 0) * batch <= max + n * batch + rec
    requires (rest + if isPast then 1 else 0) <= n
    requires isPast ==> size < max && size' == size && rec' == rec
    requires wasPast && !isPast ==> size' <= size + batch && rec' == rec
    requires !wasPast && !isPast ==> (size' <= max && rec' == rec) || size' + rec <= size + rec'
    ensures size' + (rest + if isPast then 1 else 0) * batch <= max + n * batch + rec'
  {
  }

  lemma StillDispatchers(ds: set<ActorId>, s: State, a: ActorId, s': State)
    requires PastCheck(s) <= ds && PastCheck(s') - {a} == PastCheck(s) - {a}
    requires s'.At(a).Dispatching? ==> a in ds
    ensures PastCheck(s') <= ds
  {
    forall b | b in PastCheck(s')
      ensures b in ds
    {
      assert b != a ==> b in PastCheck(s') - {a};
    }
  }

  lemma ByReadyBounded(c: Config, ds: set<ActorId>, s: State, a: ActorId, t: Store, k': Ctl)
    requires ReadyBounded(c, ds, s) && (k'.Dispatching? ==> a in ds)
    requires k'.Dispatching? ==>
      |s.store.q.ready| < c.readyQueueMaxSize && |t.q.ready| == |s.store.q.ready| && t.recovered == s.store.recovered
    requires s.At(a).Dispatching? && !k'.Dispatching? ==>
      |t.q.ready| <= |s.store.q.ready| + c.dispatchBatchSize && t.recovered == s.store.recovered
    requires !s.At(a).Dispatching? && !k'.Dispatching? ==>
      || (|t.q.ready| <= c.readyQueueMaxSize && t.recovered == s.store.recovered)
      || |t.q.ready| + s.store.recovered <= |s.store.q.ready| + t.recovered
    ensures ReadyBounded(c, ds, State(t, s.actors[a := k']))
  {
    var s' := State(t, s.actors[a := k']);
    PastCheckExcept(s, a);
    PastCheckExcept(s', a);
    PastCheckStep(s, a, t, k');
    StillDispatchers(ds, s, a, s');
    SubsetSize(PastCheck(s'), ds);
    Bookkeeping(|s.store.q.ready|, |t.q.ready|, |PastCheck(s) - {a}|, s.At(a).Dispatching?, k'.Dispatching?, |ds|,
      c.dispatchBatchSize, c.readyQueueMaxSize, s.store.recovered, t.recovered);
  }

  ghost predicate RunOn(c: Config, ds: set<ActorId>, s: State, es: seq<Event>, s': State)
    decreases |es|
  {
    if es == [] then s == s'
    else Enabled(c, s, es[0]) && OnlyDispatch(ds, es[0]) && RunOn(c, ds, Next(c, s, es[0]), es[1..], s')
  }

  lemma {:induction false} RunReadyBounded(c: Config, ds: set<ActorId>, s: State, es: seq<Event>, s': State)
    requires ReadyBounded(c, ds, s) && RunOn(c, ds, s, es, s')
    ensures ReadyBounded(c, ds, s')
    decreases |es|
  {
    if es != [] {
      if es[0].By? {
        var k, t := s.At(es[0].a), Effect(c, s.store, s.At(es[0].a), es[0].x);
        ActionSize(c, s.store, k, es[0].x);
        ByReadyBounded(c, ds, s, es[0].a, t, Control(c, s.store, k, es[0].x));
      } else {
        assert PastCheck(Next(c, s, es[0])) == PastCheck(s);
      }
      RunReadyBounded(c, ds, Next(c, s, es[0]), es[1..], s');
    }
  }

  /** Ready-queue bound: however dispatchers, fetchers, workers and recoverers interleave, the queue holds at
      most its maximum, one batch per dispatcher, and the orphans recovery put back. */
  lemma ReadyQueueBound(c: Config, ds: set<ActorId>, now: nat, es: seq<Event>, s: State)
    requires RunOn(c, ds, Start(now), es, s)
    ensures |s.store.q.ready| + |PastCheck(s)| * c.dispatchBatchSize
      <= c.readyQueueMaxSize + |ds| * c.dispatchBatchSize + s.store.recovered
    ensures |s.store.q.ready| <= c.readyQueueMaxSize + |ds| * c.dispatchBatchSize + s.store.recovered
  {
    assert PastCheck(Start(now)) == {};
    RunReadyBounded(c, ds, Start(now), es, s);
  }
}
