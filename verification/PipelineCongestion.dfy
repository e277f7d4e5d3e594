/** The congestion counters against the queue they count: each group's counter never exceeds the number of
    its jobs in the non-ready queue, and equals it as long as nothing but adding and moving touches it. */
module PipelineCongestion {
  import opened Base
  import opened FairQueue
  import opened SortedSet
  import opened Pipeline
  import opened PipelinePlaces
  import PipelineResults

  ghost function DelayedOf(s: Store, g: GroupId): set<JobId> {
    set j | j in s.nonReady && s.q.GroupOf(j) == g
  }

  /** The counter of g against the queue; `exact` asks for equality. */
  ghost predicate Agrees(s: Store, g: GroupId, exact: bool) {
    && CountAt(s.congestion, g) <= |DelayedOf(s, g)|
    && (exact ==> CountAt(s.congestion, g) == |DelayedOf(s, g)|)
  }

  lemma AddDelayed(s: Store, s': Store, j: JobId, due: nat, g: GroupId)
    requires j !in s.nonReady && s'.nonReady == s.nonReady[j := due] && s'.q.groups == s.q.groups
    ensures |DelayedOf(s', g)| == |DelayedOf(s, g)| + if s.q.GroupOf(j) == g then 1 else 0
  {
    forall i: JobId
      ensures i in DelayedOf(s', g) <==> i in DelayedOf(s, g) + if s.q.GroupOf(j) == g then {j} else {}
    {
    }
    assert DelayedOf(s', g) == DelayedOf(s, g) + if s.q.GroupOf(j) == g then {j} else {};
  }

  lemma DropDelayed(s: Store, s': Store, j: JobId, g: GroupId)
    requires j in s.nonReady && s'.nonReady == s.nonReady - {j} && s'.q.groups == s.q.groups
    ensures |DelayedOf(s, g)| == |DelayedOf(s', g)| + if s.q.GroupOf(j) == g then 1 else 0
  {
    forall i: JobId
      ensures i in DelayedOf(s, g) <==> i in DelayedOf(s', g) + if s.q.GroupOf(j) == g then {j} else {}
    {
    }
    assert DelayedOf(s, g) == DelayedOf(s', g) + if s.q.GroupOf(j) == g then {j} else {};
  }

  /** Moving one member lowers its group's counter with the queue; an exact counter is not at zero then. */
  lemma MoveOneAgrees(s: Store, j: JobId, g: GroupId, exact: bool)
    requires Agrees(s, g, exact) && j in s.nonReady && j in s.q.groups
    ensures Agrees(s.MoveOne(j), g, exact)
    ensures exact && s.q.GroupOf(j) == g ==> 1 <= CountAt(s.congestion, g)
  {
    DropDelayed(s, s.MoveOne(j), j, g);
  }

  lemma {:induction false} MoveLeaves(s: Store, js: seq<JobId>, j: JobId)
    ensures j in s.Move(js).nonReady <==> j in s.nonReady && j !in js
  {
    if js != [] {
      MoveLeaves(s, js[..|js| - 1], j);
      assert js == js[..|js| - 1] + [js[|js| - 1]];
    }
  }

  lemma {:induction false} MoveAgrees(s: Store, js: seq<JobId>, g: GroupId, exact: bool)
    requires Agrees(s, g, exact) && NoDup(js)
    requires forall i :: 0 <= i < |js| ==> js[i] in s.nonReady && js[i] in s.q.groups
    ensures Agrees(s.Move(js), g, exact)
  {
    if js != [] {
      var init, j := js[..|js| - 1], js[|js| - 1];
      MoveAgrees(s, init, g, exact);
      MoveLeaves(s, init, j);
      PipelineResults.MoveFrame(s, init);
      assert j !in init;
      MoveOneAgrees(s.Move(init), j, g, exact);
    }
  }

  /** Within a batch, an exact counter is above zero whenever it is about to be lowered. */
  lemma MemberCounted(s: Store, js: seq<JobId>, n: nat, g: GroupId)
    requires n < |js| && g == s.q.GroupOf(js[n]) && Agrees(s, g, true) && NoDup(js)
    requires forall i :: 0 <= i < |js| ==> js[i] in s.nonReady && js[i] in s.q.groups
    ensures 1 <= CountAt(s.Move(js[..n]).congestion, g)
  {
    MoveAgrees(s, js[..n], g, true);
    MoveLeaves(s, js[..n], js[n]);
    PipelineResults.MoveFrame(s, js[..n]);
    MoveOneAgrees(s.Move(js[..n]), js[n], g, true);
  }

  /** Everything but adding, moving and resetting leaves counters and queue alone. */
  lemma OthersUntouched(c: Config, s: Store, k: Ctl, x: Action)
    requires Guard(c, s, k, x) && !x.Delay? && !x.DelayFixed? && !x.Dispatch? && !x.ResetStats?
    ensures var s' := Effect(c, s, k, x); s'.nonReady == s.nonReady && s'.congestion == s.congestion
  {
    if !Supplies(x) {
      WorkUntouched(c, s, k, x);
    }
  }

  lemma WorkUntouched(c: Config, s: Store, k: Ctl, x: Action)
    requires Guard(c, s, k, x) && !Supplies(x) && !x.ResetStats?
    ensures var s' := Effect(c, s, k, x); s'.nonReady == s.nonReady && s'.congestion == s.congestion
  {
  }

  lemma ActionAgrees(c: Config, s: Store, k: Ctl, x: Action, g: GroupId, exact: bool)
    requires Guard(c, s, k, x) && Agrees(s, g, exact) && s.nonReady.Keys <= s.q.groups.Keys
    requires x.Delay? || x.DelayFixed? ==> k.job !in s.nonReady
    requires exact ==> !x.DelayFixed? && !x.ResetStats?
    ensures Agrees(Effect(c, s, k, x), g, exact)
  {
    var s' := Effect(c, s, k, x);
    if x.Delay? || x.DelayFixed? {
      AddDelayed(s, s', k.job, s'.nonReady[k.job], g);
    } else if x.Dispatch? {
      MoveAgrees(s, x.js, g, exact);
    } else if x.ResetStats? {
      assert DelayedOf(s', g) == DelayedOf(s, g);
    } else {
      OthersUntouched(c, s, k, x);
      PipelineResults.GroupsKept(c, s, k, x);
      assert DelayedOf(s', g) == DelayedOf(s, g);
    }
  }

  /** Events that change a counter without the queue, or the queue without the counter. */
  predicate Drifts(e: Event) {
    e.Release? || (e.By? && (e.x.DelayFixed? || e.x.ResetStats?))
  }

  // ---- What each event does to a counter ----

  /** How many of the jobs are of group g. */
  function OfGroup(groups: map<JobId, GroupId>, js: seq<JobId>, g: GroupId): nat {
    if js == [] then 0
    else OfGroup(groups, js[..|js| - 1], g) + if js[|js| - 1] in groups && groups[js[|js| - 1]] == g then 1 else 0
  }

  /** Moving a batch takes one off for each job of the group, but does not go below zero. */
  lemma {:induction false} MoveCounts(s: Store, js: seq<JobId>, g: GroupId)
    ensures var (n, k) := (CountAt(s.congestion, g), OfGroup(s.q.groups, js, g));
      CountAt(s.Move(js).congestion, g) == if k <= n then n - k else 0
  {
    if js != [] {
      MoveCounts(s, js[..|js| - 1], g);
      PipelineResults.MoveFrame(s, js[..|js| - 1]);
    }
  }

  /** The counter of a group after any event, from its value before. A delayed job adds one to its own group's counter,
      but not one put back at the fixed delay; a batch and a release take their numbers off, at most down to zero; a
      reset clears the counter of the completed group; nothing else touches it. */
  ghost predicate CounterStep(c: Config, s: State, e: Event, g: GroupId, n: nat, n': nat)
    requires Enabled(c, s, e)
  {
    match e
    case Release(h, d) => n' == if h != g then n else if d <= n then n - d else 0
    case By(a, Delay(_)) =>
      var j := s.At(a).job;
      n' == n + if (if j in s.store.q.groups then s.store.q.groups[j] else NO_GROUP) == g then 1 else 0
    case By(a, Dispatch(js)) =>
      var k := OfGroup(s.store.q.groups, js, g);
      n' == if k <= n then n - k else 0
    case By(a, ResetStats) => n' == if s.At(a) == Resetting(g) then 0 else n
    case _ => n' == n
  }

  lemma CounterSteps(c: Config, s: State, e: Event, g: GroupId)
    requires Enabled(c, s, e)
    ensures CounterStep(c, s, e, g, CountAt(s.store.congestion, g), CountAt(Next(c, s, e).store.congestion, g))
  {
    if e.By? {
      if e.x.Dispatch? {
        MoveCounts(s.store, e.x.js, g);
      } else if !e.x.Delay? && !e.x.DelayFixed? && !e.x.ResetStats? {
        OthersUntouched(c, s.store, s.At(e.a), e.x);
      }
    }
  }

  // ---- Jobs in care are known ----

  predicate CtlKnown(s: Store, k: Ctl) {
    Hand(k).Some? || k.Running? ==> k.job in s.q.groups
  }

  /** Pending and delayed jobs, and those in an actor's hand, have been submitted. */
  ghost predicate Known(s: State) {
    && (forall g: GroupId, j :: j in s.store.fair.Pending(g) ==> j in s.store.q.groups)
    && s.store.nonReady.Keys <= s.store.q.groups.Keys
    && forall a :: CtlKnown(s.store, s.At(a))
  }

  lemma CtlKnownKept(c: Config, s: Store, k: Ctl, x: Action)
    requires Guard(c, s, k, x) && CtlKnown(s, k)
    requires forall g: GroupId, j :: j in s.fair.Pending(g) ==> j in s.q.groups
    ensures Hand(Control(c, s, k, x)).Some? || Control(c, s, k, x).Running? ==> Control(c, s, k, x).job in s.q.groups
  {
    if x.Fetch? {
      assert s.fair.Pending(x.g)[0] in s.fair.Pending(x.g);
    }
  }

  /** Only an enqueue adds to a pending list. */
  lemma PendingShrinks(c: Config, s: Store, k: Ctl, x: Action, g: GroupId, j: JobId)
    requires Guard(c, s, k, x) && j in Effect(c, s, k, x).fair.Pending(g)
    ensures j in s.fair.Pending(g)
  {
    if x.Dispatch? {
      PipelineResults.MoveFrame(s, x.js);
    }
  }

  lemma DelayedKnown(c: Config, s: Store, k: Ctl, x: Action)
    requires Guard(c, s, k, x) && CtlKnown(s, k) && s.nonReady.Keys <= s.q.groups.Keys
    ensures Effect(c, s, k, x).nonReady.Keys <= s.q.groups.Keys
  {
    if x.Dispatch? {
      forall j | j in Effect(c, s, k, x).nonReady
        ensures j in s.nonReady
      {
        MoveLeaves(s, x.js, j);
      }
    } else if !x.Delay? && !x.DelayFixed? && !x.ResetStats? {
      OthersUntouched(c, s, k, x);
    }
  }

  lemma ByKnown(c: Config, s: State, a: ActorId, x: Action, s': State)
    requires Known(s) && Enabled(c, s, By(a, x)) && s' == Next(c, s, By(a, x))
    ensures Known(s')
  {
    var k := s.At(a);
    PipelineResults.GroupsKept(c, s.store, k, x);
    CtlKnownKept(c, s.store, k, x);
    DelayedKnown(c, s.store, k, x);
    forall g: GroupId, j | j in s'.store.fair.Pending(g)
      ensures j in s'.store.q.groups
    {
      PendingShrinks(c, s.store, k, x, g, j);
    }
    forall b
      ensures CtlKnown(s'.store, s'.At(b))
    {
      assert s'.At(b) == if b == a then Control(c, s.store, k, x) else s.At(b);
    }
  }

  lemma EnvKnown(c: Config, s: State, e: Event, s': State)
    requires Known(s) && Enabled(c, s, e) && !e.By? && s' == Next(c, s, e)
    ensures Known(s')
  {
    forall g: GroupId, j | j in s'.store.fair.Pending(g)
      ensures j in s'.store.q.groups
    {
      assert j in s.store.fair.Pending(g) || (e.Submit? && j == e.j);
    }
    forall b
      ensures CtlKnown(s'.store, s'.At(b))
    {
      assert s'.At(b) == s.At(b) && CtlKnown(s.store, s.At(b));
    }
  }

  lemma StepKnown(c: Config, s: State, e: Event)
    requires Known(s) && Enabled(c, s, e)
    ensures Known(Next(c, s, e))
  {
    if e.By? {
      ByKnown(c, s, e.a, e.x, Next(c, s, e));
    } else {
      EnvKnown(c, s, e, Next(c, s, e));
    }
  }

  // ---- Whole runs ----

  /** A job is added to the non-ready queue only while it is not in it. */
  predicate AddsAbsent(s: State, e: Event) {
    e.By? && (e.x.Delay? || e.x.DelayFixed?) && (s.At(e.a).Throttled? || s.At(e.a).Requeueing?) ==>
      s.At(e.a).job !in s.store.nonReady
  }

  ghost predicate AddingRun(c: Config, s: State, es: seq<Event>, s': State)
    decreases |es|
  {
    if es == [] then s == s'
    else Enabled(c, s, es[0]) && AddsAbsent(s, es[0]) && AddingRun(c, Next(c, s, es[0]), es[1..], s')
  }

  lemma StepAgrees(c: Config, s: State, e: Event, g: GroupId, exact: bool)
    requires Known(s) && Enabled(c, s, e) && AddsAbsent(s, e)
    requires Agrees(s.store, g, exact) && (exact ==> !Drifts(e))
    ensures Agrees(Next(c, s, e).store, g, exact)
  {
    if e.By? {
      ActionAgrees(c, s.store, s.At(e.a), e.x, g, exact);
    } else {
      assert DelayedOf(Next(c, s, e).store, g) == DelayedOf(s.store, g);
    }
  }

  lemma {:induction false} RunAgrees(c: Config, s: State, es: seq<Event>, s': State, g: GroupId, exact: bool)
    requires Known(s) && AddingRun(c, s, es, s') && Agrees(s.store, g, exact)
    requires exact ==> forall i :: 0 <= i < |es| ==> !Drifts(es[i])
    ensures Agrees(s'.store, g, exact) && Known(s')
    decreases |es|
  {
    if es != [] {
      StepKnown(c, s, es[0]);
      StepAgrees(c, s, es[0], g, exact);
      RunAgrees(c, Next(c, s, es[0]), es[1..], s', g, exact);
    }
  }

  /** Where jobs are added only while absent, a group's counter is at most the number of its jobs that wait in the
      non-ready queue, and it is that number if no event of the run drifts. */
  lemma CounterAgrees(c: Config, now: nat, es: seq<Event>, s: State, g: GroupId)
    requires AddingRun(c, Start(now), es, s)
    ensures CountAt(s.store.congestion, g) <= |DelayedOf(s.store, g)|
    ensures (forall i :: 0 <= i < |es| ==> !Drifts(es[i])) ==> CountAt(s.store.congestion, g) == |DelayedOf(s.store, g)|
  {
    assert DelayedOf(Start(now).store, g) == {};
    var exact := forall i :: 0 <= i < |es| ==> !Drifts(es[i]);
    RunAgrees(c, Start(now), es, s, g, exact);
  }

  /** In such a run without drift the clamp at zero never fires: whenever a batch is moved, each of its
      members finds its group's counter above zero. */
  lemma ClampNeverFires(c: Config, now: nat, es: seq<Event>, s: State, a: ActorId, js: seq<JobId>, n: nat)
    requires AddingRun(c, Start(now), es, s) && forall i :: 0 <= i < |es| ==> !Drifts(es[i])
    requires Enabled(c, s, By(a, Dispatch(js))) && n < |js|
    ensures 1 <= CountAt(s.store.Move(js[..n]).congestion, s.store.q.GroupOf(js[n]))
  {
    var g := s.store.q.GroupOf(js[n]);
    assert DelayedOf(Start(now).store, g) == {};
    RunAgrees(c, Start(now), es, s, g, true);
    BatchCounted(c, s, a, js, n);
  }

  lemma BatchCounted(c: Config, s: State, a: ActorId, js: seq<JobId>, n: nat)
    requires Enabled(c, s, By(a, Dispatch(js))) && n < |js| && Known(s)
    requires Agrees(s.store, s.store.q.GroupOf(js[n]), true)
    ensures 1 <= CountAt(s.store.Move(js[..n]).congestion, s.store.q.GroupOf(js[n]))
  {
    assert forall i :: 0 <= i < |js| ==> js[i] in s.store.nonReady.Keys;
    MemberCounted(s.store, js, n, s.store.q.GroupOf(js[n]));
  }

  lemma HandNotDelayed(s: Store, L: Ledger, a: ActorId, k: Ctl)
    requires OwnHand(L, a, k) && Hand(k).Some? && SetHolds(s.nonReady.Keys, L, Delayed)
    ensures k.job !in s.nonReady
  {
    InHand(L, a, k);
    assert k.job !in s.nonReady.Keys;
  }

  lemma ConsistentAdds(c: Config, s: State, L: Ledger, e: Event)
    requires Consistent(c, s, L)
    ensures AddsAbsent(s, e)
  {
    if e.By? && Hand(s.At(e.a)).Some? {
      HandNotDelayed(s.store, L, e.a, s.At(e.a));
    }
  }

  lemma {:induction false} PunctualAdds(c: Config, s: State, L: Ledger, es: seq<Event>, s': State)
    requires InTime(c) && Consistent(c, s, L) && PunctualRun(c, s, es, s')
    ensures AddingRun(c, s, es, s')
    decreases |es|
  {
    if es != [] {
      ConsistentAdds(c, s, L, es[0]);
      StepKeeps(c, s, L, es[0]);
      PunctualAdds(c, Next(c, s, es[0]), MovedBy(c, s, es[0], L), es[1..], s');
    }
  }

  /** So it is in every punctual run with limits in time. */
  lemma PunctualCounterAgrees(c: Config, now: nat, es: seq<Event>, s: State, g: GroupId)
    requires InTime(c) && PunctualRun(c, Start(now), es, s)
    ensures CountAt(s.store.congestion, g) <= |DelayedOf(s.store, g)|
    ensures (forall i :: 0 <= i < |es| ==> !Drifts(es[i])) ==> CountAt(s.store.congestion, g) == |DelayedOf(s.store, g)|
  {
    StartConsistent(c, now);
    PunctualAdds(c, Start(now), map[], es, s);
    CounterAgrees(c, now, es, s, g);
  }
}
