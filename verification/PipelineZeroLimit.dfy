/** With an orphan limit of zero recovery dead-letters whatever it takes, so it adds no execution, not even when it
    takes a job from under its worker: the execution bound holds whatever the time limits. The proof follows a second
    store beside the real one, in which recovery takes nothing. */
module PipelineZeroLimit {
  import opened Base
  import opened FairQueue
  import opened ReliableQueue
  import opened SortedSet
  import opened Pipeline
  import opened PipelinePlaces
  import opened PipelineRetries
  import opened PipelineTermination
  import PipelineResults

  /** The stores differ in what is in flight and what is dead-lettered at most. */
  ghost predicate Shadows(s: Store, t: Store) {
    t == s.(q := s.q.(deadlines := t.q.deadlines, meta := t.q.meta, dead := t.q.dead))
  }

  /** No decision but recovery's looks at what is in flight or dead-lettered. */
  ghost predicate ShadowActs(c: Config, s: Store, t: Store, k: Ctl, x: Action)
    requires Guard(c, s, k, x)
  {
    Guard(c, t, k, x) && Control(c, t, k, x) == Control(c, s, k, x) && Shadows(Effect(c, s, k, x), Effect(c, t, k, x))
  }

  lemma {:induction false} MoveShadows(s: Store, t: Store, js: seq<JobId>)
    requires Shadows(s, t)
    ensures Shadows(s.Move(js), t.Move(js))
  {
    if js != [] {
      MoveShadows(s, t, js[..|js| - 1]);
    }
  }

  lemma SupplyShadows(c: Config, s: Store, t: Store, k: Ctl, x: Action)
    requires Shadows(s, t) && Guard(c, s, k, x) && Supplies(x)
    ensures ShadowActs(c, s, t, k, x)
  {
    if x.Dispatch? {
      MoveShadows(s, t, x.js);
    }
  }

  lemma PopShadows(c: Config, s: Store, t: Store, k: Ctl)
    requires Shadows(s, t) && Guard(c, s, k, Pop)
    ensures ShadowActs(c, s, t, k, Pop)
  {
  }

  lemma FlightShadows(c: Config, s: Store, t: Store, k: Ctl, x: Action)
    requires Shadows(s, t) && Guard(c, s, k, x) && Executes(x) && !x.Pop?
    ensures ShadowActs(c, s, t, k, x)
  {
  }

  lemma BooksShadows(c: Config, s: Store, t: Store, k: Ctl, x: Action)
    requires Shadows(s, t) && Guard(c, s, k, x) && !Supplies(x) && !Executes(x) && !x.Recover?
    ensures ShadowActs(c, s, t, k, x)
  {
  }

  lemma ActionShadows(c: Config, s: Store, t: Store, k: Ctl, x: Action)
    requires Shadows(s, t) && Guard(c, s, k, x) && !x.Recover?
    ensures ShadowActs(c, s, t, k, x)
  {
    if Supplies(x) {
      SupplyShadows(c, s, t, k, x);
    } else if x.Pop? {
      PopShadows(c, s, t, k);
    } else if Executes(x) {
      FlightShadows(c, s, t, k, x);
    } else {
      BooksShadows(c, s, t, k, x);
    }
  }

  lemma {:induction false} BuriesAll(q: Queues, js: seq<JobId>, now: nat)
    ensures var r := q.Recover(js, now, 0); r == q.(deadlines := r.deadlines, meta := r.meta, dead := r.dead)
    ensures var r := q.Recover(js, now, 0);
      r.deadlines.Keys <= q.deadlines.Keys && forall i :: i in js ==> i !in r.deadlines
    ensures Survivors(q, js, 0) == []
  {
    if js != [] {
      BuriesAll(q, js[..|js| - 1], now);
      assert js == js[..|js| - 1] + [js[|js| - 1]];
    }
  }

  lemma RecoverShadows(c: Config, s: Store, t: Store, js: seq<JobId>)
    requires c.orphanMaxRetry == 0 && Shadows(s, t) && Guard(c, s, Idle, Recover(js))
    ensures var s' := Effect(c, s, Idle, Recover(js));
      && Shadows(s', t) && s'.q.deadlines.Keys <= s.q.deadlines.Keys
      && forall i :: i in js ==> i in s.q.deadlines && i !in s'.q.deadlines
    ensures Hand(Control(c, s, Idle, Recover(js))).None? && Executing(Control(c, s, Idle, Recover(js))).None?
  {
    BuriesAll(s.q, js, s.now);
  }

  /** The jobs in flight after an action that is not recovery. */
  function Aloft(keys: set<JobId>, ready: seq<JobId>, k: Ctl, x: Action): set<JobId> {
    if x.Pop? && ready != [] then keys + {ready[0]}
    else if (x.Settle? || x.Discard?) && Executing(k).Some? then keys - {k.job}
    else keys
  }

  lemma FlightKeys(c: Config, s: Store, k: Ctl, x: Action)
    requires Guard(c, s, k, x) && Executes(x)
    ensures Effect(c, s, k, x).q.deadlines.Keys == Aloft(s.q.deadlines.Keys, s.q.ready, k, x)
  {
  }

  lemma OtherKeys(c: Config, s: Store, k: Ctl, x: Action)
    requires Guard(c, s, k, x) && !Executes(x) && !x.Recover?
    ensures Effect(c, s, k, x).q.deadlines == s.q.deadlines
  {
    if x.Dispatch? {
      PipelineResults.MoveFrame(s, x.js);
    }
  }

  lemma ActionKeys(c: Config, s: Store, k: Ctl, x: Action)
    requires Guard(c, s, k, x) && !x.Recover?
    ensures Effect(c, s, k, x).q.deadlines.Keys == Aloft(s.q.deadlines.Keys, s.q.ready, k, x)
  {
    if Executes(x) {
      FlightKeys(c, s, k, x);
    } else {
      OtherKeys(c, s, k, x);
    }
  }

  /** What an action adds to or takes from both sets of jobs in flight changes their difference by a settled job. */
  lemma AloftApart(fewer: set<JobId>, more: set<JobId>, ready: seq<JobId>, k: Ctl, x: Action)
    requires fewer <= more && (x.Pop? && ready != [] ==> ready[0] !in more)
    ensures Aloft(fewer, ready, k, x) <= Aloft(more, ready, k, x)
    ensures |more - fewer|
      <= |Aloft(more, ready, k, x) - Aloft(fewer, ready, k, x)| + if x.Settle? || x.Discard? then 1 else 0
  {
    var rest := Aloft(more, ready, k, x) - Aloft(fewer, ready, k, x);
    if (x.Settle? || x.Discard?) && Executing(k).Some? {
      SubsetSize(more - fewer, rest + {k.job});
    } else {
      SubsetSize(more - fewer, rest);
    }
  }

  /** How many entries recovery has taken from flight whose jobs still fly in the second store. */
  function Owed(s: Store, t: Store): nat {
    |t.q.deadlines.Keys - s.q.deadlines.Keys|
  }

  /** The second store, with the same actors. */
  ghost predicate Followed(c: Config, s: State, t: Store, L: Ledger) {
    && Shadows(s.store, t) && s.store.q.deadlines.Keys <= t.q.deadlines.Keys
    && Consistent(c, State(t, s.actors), L) && Counted(c, State(t, s.actors), L)
  }

  /** An actor without a job in its care may become another one. */
  lemma HandsFree(c: Config, s: State, L: Ledger, a: ActorId, k': Ctl)
    requires Consistent(c, s, L) && Counted(c, s, L) && s.At(a).Idle?
    requires Hand(k').None? && Executing(k').None?
    ensures Consistent(c, State(s.store, s.actors[a := k']), L) && Counted(c, State(s.store, s.actors[a := k']), L)
  {
    var s' := State(s.store, s.actors[a := k']);
    forall b: ActorId
      ensures OwnHand(L, b, s'.At(b)) && OwnRun(c, s.store, L, s'.At(b)) && Timely(c, s.store.now, s'.At(b))
      ensures HandCounts(s.store, s'.At(b))
    {
      assert s'.At(b) == if b == a then k' else s.At(b);
      assert OwnHand(L, b, s.At(b)) && OwnRun(c, s.store, L, s.At(b)) && Timely(c, s.store.now, s.At(b));
      assert HandCounts(s.store, s.At(b));
    }
    forall x, y | x != y && Executing(s'.At(x)).Some?
      ensures Executing(s'.At(y)) != Executing(s'.At(x))
    {
      assert s'.At(x) == s.At(x) && s'.At(y) == if y == a then k' else s.At(y);
    }
  }

  lemma RecoverFollowed(c: Config, s: State, t: Store, L: Ledger, a: ActorId, js: seq<JobId>, s': State)
    requires c.orphanMaxRetry == 0 && Followed(c, s, t, L) && Enabled(c, s, By(a, Recover(js)))
    requires s' == Next(c, s, By(a, Recover(js)))
    ensures Followed(c, s', t, L)
    ensures Owed(s.store, t) + (if js != [] then 1 else 0) <= Owed(s'.store, t)
  {
    RecoverShadows(c, s.store, t, js);
    HandsFree(c, State(t, s.actors), L, a, Control(c, s.store, Idle, Recover(js)));
    if js != [] {
      assert js[0] in js;
      OwedMore(s.store, s'.store, t, js[0]);
    } else {
      SubsetSize(t.q.deadlines.Keys - s.store.q.deadlines.Keys, t.q.deadlines.Keys - s'.store.q.deadlines.Keys);
    }
  }

  lemma OwedMore(s: Store, s': Store, t: Store, j: JobId)
    requires s'.q.deadlines.Keys <= s.q.deadlines.Keys <= t.q.deadlines.Keys
    requires j in s.q.deadlines && j !in s'.q.deadlines
    ensures Owed(s, t) + 1 <= Owed(s', t)
  {
    var owed := t.q.deadlines.Keys - s.q.deadlines.Keys;
    SubsetSize(owed + {j}, t.q.deadlines.Keys - s'.q.deadlines.Keys);
  }

  lemma EventShadows(c: Config, s: State, t: Store, e: Event, s': State, r': State)
    requires Shadows(s.store, t) && Enabled(c, s, e) && !Recovers(e) && s' == Next(c, s, e)
    ensures Enabled(c, State(t, s.actors), e) && Moving(State(t, s.actors), e) == Moving(s, e)
    ensures r' == Next(c, State(t, s.actors), e) ==> r'.actors == s'.actors && Shadows(s'.store, r'.store)
  {
    if e.By? {
      assert State(t, s.actors).At(e.a) == s.At(e.a);
      ActionShadows(c, s.store, t, s.At(e.a), e.x);
    }
  }

  /** A job taken off flight in both stores may have been owed. */
  function Settling(e: Event): nat {
    if e.By? && (e.x.Settle? || e.x.Discard?) then 1 else 0
  }

  lemma EventKeys(c: Config, s: State, t: Store, L: Ledger, e: Event, s': State, r': State)
    requires s.store.q.deadlines.Keys <= t.q.deadlines.Keys && t.q.ready == s.store.q.ready && Housed(t, L)
    requires Enabled(c, s, e) && !Recovers(e) && s' == Next(c, s, e)
    requires Enabled(c, State(t, s.actors), e) && r' == Next(c, State(t, s.actors), e)
    ensures s'.store.q.deadlines.Keys <= r'.store.q.deadlines.Keys
    ensures Owed(s.store, t) <= Owed(s'.store, r'.store) + Settling(e)
  {
    if e.By? {
      var k := s.At(e.a);
      assert State(t, s.actors).At(e.a) == k;
      ActionKeys(c, s.store, k, e.x);
      ActionKeys(c, t, k, e.x);
      if t.q.ready != [] {
        assert t.q.ready[0] in t.q.ready;
        assert t.q.ready[0] !in t.q.deadlines.Keys;
      }
      AloftApart(s.store.q.deadlines.Keys, t.q.deadlines.Keys, t.q.ready, k, e.x);
    }
  }

  lemma OtherFollowed(c: Config, s: State, t: Store, L: Ledger, e: Event, s': State, r': State)
    requires c.orphanMaxRetry == 0 && Followed(c, s, t, L) && Enabled(c, s, e) && Punctual(c, s, e) && !Recovers(e)
    requires s' == Next(c, s, e) && Enabled(c, State(t, s.actors), e) && r' == Next(c, State(t, s.actors), e)
    ensures Followed(c, s', r'.store, MovedBy(c, State(t, s.actors), e, L))
    ensures Owed(s.store, t) <= Owed(s'.store, r'.store) + Settling(e)
  {
    var r := State(t, s.actors);
    EventShadows(c, s, t, e, s', r');
    EventKeys(c, s, t, L, e, s', r');
    assert Punctual(c, r, e) by {
      assert forall a :: r.At(a) == s.At(a);
    }
    StepKeeps(c, r, L, e);
    StepCounted(c, r, L, e);
    assert r' == State(r'.store, s'.actors);
  }

  // ---- What the second store pays for ----

  lemma SettleWeight(c: Config, r: State, L: Ledger, a: ActorId, x: Action, r': State)
    requires Enabled(c, r, By(a, x)) && x.Settle? && r' == Next(c, r, By(a, x))
    requires OwnRun(c, r.store, L, r.At(a))
    ensures var j := r.At(a).job; j in L && JobWeight(c, r', L[j := Held(a)], j) + 2 <= JobWeight(c, r, L, j)
  {
  }

  lemma SettleSeated(c: Config, r: State, L: Ledger, a: ActorId, x: Action, r': State, L': Ledger)
    requires OwnHand(L, a, r.At(a)) && OwnRun(c, r.store, L, r.At(a)) && Seated(r.store, L, a, r.At(a), x)
    requires Counted(c, r, L) && Enabled(c, r, By(a, x)) && x.Settle? && r' == Next(c, r, By(a, x))
    requires L' == Moved(c, r.store, a, r.At(a), x, L) == L[r.At(a).job := Held(a)]
    ensures Sum(Weights(c, r', L')) + 2 <= Sum(Weights(c, r, L))
  {
    forall i | i in L
      ensures JobWeight(c, r', L', i) <= JobWeight(c, r, L, i)
    {
      ActionWeights(c, r, L, a, x, i);
    }
    SettleWeight(c, r, L, a, x, r');
    WeightsFall(c, r, L, r', L', r.At(a).job, 2);
  }

  /** A settlement takes more weight than the step it is. */
  lemma SettleMeasure(c: Config, r: State, L: Ledger, a: ActorId, x: Action, r': State)
    requires Consistent(c, r, L) && Counted(c, r, L) && Enabled(c, r, By(a, x)) && x.Settle?
    requires r' == Next(c, r, By(a, x))
    ensures Sum(Weights(c, r', Moved(c, r.store, a, r.At(a), x, L))) + 2 <= Sum(Weights(c, r, L))
  {
    var k := r.At(a);
    assert OwnHand(L, a, k) && OwnRun(c, r.store, L, k) && Timely(c, r.store.now, k);
    Seating(c, r.store, L, a, k, x);
    SettleSeated(c, r, L, a, x, r', Moved(c, r.store, a, k, x, L));
  }

  lemma NoDiscard(c: Config, r: State, L: Ledger, a: ActorId)
    requires Consistent(c, r, L)
    ensures !Enabled(c, r, By(a, Discard))
  {
    assert OwnRun(c, r.store, L, r.At(a));
  }

  lemma EventMeasure(c: Config, r: State, L: Ledger, e: Event, r': State, L': Ledger)
    requires Consistent(c, r, L) && Counted(c, r, L) && Enabled(c, r, e)
    requires r' == Next(c, r, e) && L' == MovedBy(c, r, e, L) && Consistent(c, r', L')
    ensures Sum(Weights(c, r', L')) + Moving(r, e) + Settling(e)
      <= Sum(Weights(c, r, L)) + if e.Submit? then MovesPerJob(c) else 0
  {
    if e.By? && e.x.Settle? {
      SettleMeasure(c, r, L, e.a, e.x, r');
    } else {
      if e.By? {
        NoDiscard(c, r, L, e.a);
      }
      StepMeasure(c, r, L, e, r', L');
    }
  }

  /** What is left to spend: the weight in the second store, less what recovery has spent beside it. */
  ghost function Left(c: Config, s: State, t: Store, L: Ledger): int {
    Sum(Weights(c, State(t, s.actors), L)) - Owed(s.store, t)
  }

  lemma StepFollowed(c: Config, s: State, t: Store, L: Ledger, e: Event, s': State) returns (t': Store, L': Ledger)
    requires c.orphanMaxRetry == 0 && Followed(c, s, t, L) && Enabled(c, s, e) && Punctual(c, s, e)
    requires s' == Next(c, s, e)
    ensures Followed(c, s', t', L')
    ensures Left(c, s', t', L') + Moving(s, e) <= Left(c, s, t, L) + if e.Submit? then MovesPerJob(c) else 0
  {
    var r := State(t, s.actors);
    if Recovers(e) {
      t', L' := t, L;
      RecoverFollowed(c, s, t, L, e.a, e.x.js, s');
      IdleWeights(c, r, L, e.a, Control(c, s.store, Idle, e.x));
    } else {
      EventShadows(c, s, t, e, s', r);
      var r' := Next(c, r, e);
      t', L' := r'.store, MovedBy(c, r, e, L);
      EventShadows(c, s, t, e, s', r');
      OtherFollowed(c, s, t, L, e, s', r');
      EventMeasure(c, r, L, e, r', L');
    }
  }

  lemma IdleWeights(c: Config, r: State, L: Ledger, a: ActorId, k': Ctl)
    requires Consistent(c, r, L) && r.At(a).Idle?
    ensures Sum(Weights(c, State(r.store, r.actors[a := k']), L)) <= Sum(Weights(c, r, L))
  {
    var r' := State(r.store, r.actors[a := k']);
    forall i | i in L
      ensures JobWeight(c, r', L, i) <= JobWeight(c, r, L, i)
    {
      if L[i].Held? {
        assert OwnHand(L, L[i].a, r.At(L[i].a));
        assert r'.At(L[i].a) == r.At(L[i].a);
      }
    }
    WeightsKept(c, r, L, r', L);
  }

  lemma {:induction false} RunFollowed(c: Config, s: State, t: Store, L: Ledger, es: seq<Event>, s': State)
    returns (t': Store, L': Ledger)
    requires c.orphanMaxRetry == 0 && Followed(c, s, t, L) && PunctualRun(c, s, es, s')
    ensures Followed(c, s', t', L')
    ensures Left(c, s', t', L') + JobMoves(c, s, es) + Allowance(c, |s.store.q.groups|)
      <= Left(c, s, t, L) + Allowance(c, |s'.store.q.groups|)
    decreases |es|
  {
    t', L' := t, L;
    if es != [] {
      var m := Next(c, s, es[0]);
      var t1, L1 := StepFollowed(c, s, t, L, es[0], m);
      SubmitCounts(c, s, es[0], m);
      t', L' := RunFollowed(c, m, t1, L1, es[1..], s');
    }
  }

  /** Every job in flight weighs something. */
  lemma FlyingWeighs(c: Config, r: State, L: Ledger, js: set<JobId>)
    requires SetHolds(js, L, Flying)
    ensures |js| <= Sum(Weights(c, r, L))
  {
    forall j | j in js
      ensures j in L && JobWeight(c, r, L, j) >= 1
    {
      assert Stage(Flying, Idle) == 5;
    }
    SumAtLeast(Weights(c, r, L), js);
  }

  lemma OwedAtMost(c: Config, s: State, t: Store, L: Ledger)
    requires SetHolds(t.q.deadlines.Keys, L, Flying)
    ensures 0 <= Left(c, s, t, L)
  {
    FlyingWeighs(c, State(t, s.actors), L, t.q.deadlines.Keys);
    SubsetSize(t.q.deadlines.Keys - s.store.q.deadlines.Keys, t.q.deadlines.Keys);
  }

  lemma FollowedBound(c: Config, s: State, t: Store, L: Ledger, j: JobId)
    requires Followed(c, s, t, L)
    ensures Runs(s.store, j) <= MaxRetry(c) + 1
  {
    if j in L {
      assert JobCounts(c, t, L, j);
    }
  }

  /** With an orphan limit of zero no job is executed more often than the limits allow, whatever metadata pops store,
      and whether or not the time limits keep deadlines ahead of their workers. */
  lemma ZeroLimitBound(c: Config, now: nat, es: seq<Event>, s: State, j: JobId)
    requires c.orphanMaxRetry == 0 && PunctualRun(c, Start(now), es, s)
    ensures Runs(s.store, j) <= MaxRetry(c) + 1
  {
    StartConsistent(c, now);
    var t, L := RunFollowed(c, Start(now), Start(now).store, map[], es, s);
    FollowedBound(c, s, t, L, j);
  }

  /** And the steps that move jobs are at most a fixed number for each job submitted. */
  lemma ZeroLimitTerminates(c: Config, now: nat, es: seq<Event>, s: State)
    requires c.orphanMaxRetry == 0 && PunctualRun(c, Start(now), es, s)
    ensures JobMoves(c, Start(now), es) <= MovesPerJob(c) * |s.store.q.groups|
  {
    StartConsistent(c, now);
    var t, L := RunFollowed(c, Start(now), Start(now).store, map[], es, s);
    OwedAtMost(c, s, t, L);
    AllowanceIs(c, |s.store.q.groups|);
    StartLeft(c, now);
  }

  lemma StartLeft(c: Config, now: nat)
    ensures Left(c, Start(now), Start(now).store, map[]) == 0
  {
    assert Weights(c, Start(now), map[]) == map[];
  }
}
