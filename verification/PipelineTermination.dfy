/** Termination: a job is moved a bounded number of times, so without new submissions the steps that move jobs run
    out. Each job carries a weight, remaining retries first and stage second; a step that moves jobs lowers the
    weight of each job it moves. */
module PipelineTermination {
  import opened Base
  import opened FairQueue
  import opened ReliableQueue
  import opened SortedSet
  import opened Pipeline
  import opened PipelinePlaces
  import opened PipelineRetries
  import PipelineResults

  // ---- Sums over jobs ----

  ghost function Sum(m: map<JobId, nat>): nat
    decreases |m|
  {
    if m == map[] then 0 else
    var j :| j in m;
    m[j] + Sum(m - {j})
  }

  lemma {:induction false} SumAt(m: map<JobId, nat>, j: JobId)
    requires j in m
    ensures Sum(m) == m[j] + Sum(m - {j})
    decreases |m|
  {
    var i :| i in m && Sum(m) == m[i] + Sum(m - {i});
    if i != j {
      SumAt(m - {i}, j);
      assert m - {i} - {j} == m - {j} - {i};
      SumAt(m - {j}, i);
    }
  }

  lemma {:induction false} SumMono(m: map<JobId, nat>, m': map<JobId, nat>)
    requires m'.Keys == m.Keys && forall j :: j in m ==> m'[j] <= m[j]
    ensures Sum(m') <= Sum(m)
    decreases |m|
  {
    if m == map[] {
      assert m' == map[];
    } else {
      var j :| j in m;
      SumAt(m, j);
      SumAt(m', j);
      SumMono(m - {j}, m' - {j});
    }
  }

  lemma SumFalls(m: map<JobId, nat>, m': map<JobId, nat>, i: JobId, n: nat)
    requires m'.Keys == m.Keys && (forall j :: j in m ==> m'[j] <= m[j]) && i in m && m'[i] + n <= m[i]
    ensures Sum(m') + n <= Sum(m)
  {
    SumAt(m, i);
    SumAt(m', i);
    SumMono(m - {i}, m' - {i});
  }

  lemma {:induction false} SumAtLeast(m: map<JobId, nat>, js: set<JobId>)
    requires js <= m.Keys && forall j :: j in js ==> m[j] >= 1
    ensures |js| <= Sum(m)
    decreases |js|
  {
    if js != {} {
      var j :| j in js;
      SumAt(m, j);
      SumAtLeast(m - {j}, js - {j});
    }
  }

  lemma OneMore(b: nat, n: nat, sum: nat, w: nat)
    requires 1 <= n && w <= b && sum <= b * (n - 1)
    ensures w + sum <= b * n
  {
  }

  lemma {:induction false} SumBound(m: map<JobId, nat>, b: nat)
    requires forall j :: j in m.Values ==> j <= b
    ensures Sum(m) <= b * |m|
    decreases |m|
  {
    if m != map[] {
      var j :| j in m;
      SumAt(m, j);
      var rest := m - {j};
      assert rest.Keys == m.Keys - {j};
      assert rest.Values <= m.Values;
      SumBound(rest, b);
      assert m[j] in m.Values;
      OneMore(b, |m|, Sum(rest), m[j]);
    }
  }

  // ---- The weight of a job ----

  /** How far a job has come since its last counted retry; k is where its holder stands. */
  function Stage(p: Place, k: Ctl): nat {
    match p
    case Waiting => 11
    case Held(_) =>
      if k.Fetched? then 10
      else if k.Roomy? then 9
      else if k.Allowed? || k.Throttled? || k.Requeueing? then 8
      else if k.Completing? || k.Failing? then 2
      else if k.Recorded? then 1
      else 0
    case Delayed => 7
    case OnReady => 6
    case Flying => 5
    case _ => 0
  }

  function Weight(c: Config, s: Store, p: Place, k: Ctl, j: JobId): nat {
    Max(0, MaxRetry(c) - Retries(s, j)) * 12 + Stage(p, k)
  }

  /** The action takes at least one job a step further. */
  predicate MovesJob(s: Store, k: Ctl, x: Action) {
    match x
    case Pop => s.q.ready != []
    case Dispatch(js) => js != []
    case Recover(js) => js != []
    case Record => k.Completing?
    case Acknowledge => k.Recorded?
    case Crash => Hand(k).Some?
    case Poll => false
    case CheckReady => false
    case Peek => false
    case ReadMeta => false
    case DispatchCheck => false
    case Load => false
    case Discard => false
    case Heartbeat => false
    case ResetStats => false
    case _ => true
  }

  lemma SingleWeightSupply(c: Config, s: Store, L: Ledger, a: ActorId, k: Ctl, x: Action, j: JobId)
    requires Guard(c, s, k, x) && Seated(s, L, a, k, x) && !x.Dispatch? && !x.Recover?
    requires Touched(s, k, x) == [j] && HandCounts(s, k)
    requires Supplies(x)
    ensures var L' := Moved(c, s, a, k, x, L);
      && j in L' && (L'[j].Held? ==> L'[j] == Held(a)) && (L[j].Held? ==> L[j] == Held(a))
      && Weight(c, Effect(c, s, k, x), L'[j], Control(c, s, k, x), j) + (if MovesJob(s, k, x) then 1 else 0)
        <= Weight(c, s, L[j], k, j)
  {
    match x
    case Fetch(_, _) =>
    case Poll =>
    case CheckRoom =>
    case CheckRate(_) =>
    case Push =>
    case Delay(_) =>
    case DelayFixed =>
    case DispatchCheck =>
    case _ =>
  }

  lemma SingleWeightFlight(c: Config, s: Store, L: Ledger, a: ActorId, k: Ctl, x: Action, j: JobId)
    requires Guard(c, s, k, x) && Seated(s, L, a, k, x) && !x.Dispatch? && !x.Recover?
    requires Touched(s, k, x) == [j] && HandCounts(s, k)
    requires !Supplies(x) && Executes(x)
    ensures var L' := Moved(c, s, a, k, x, L);
      && j in L' && (L'[j].Held? ==> L'[j] == Held(a)) && (L[j].Held? ==> L[j] == Held(a))
      && Weight(c, Effect(c, s, k, x), L'[j], Control(c, s, k, x), j) + (if MovesJob(s, k, x) then 1 else 0)
        <= Weight(c, s, L[j], k, j)
  {
    match x
    case CheckReady =>
    case Peek =>
    case ReadMeta =>
    case Pop =>
    case Load =>
    case Discard =>
    case Heartbeat =>
    case Settle(_, _) =>
    case _ =>
  }

  lemma SingleWeightBooks(c: Config, s: Store, L: Ledger, a: ActorId, k: Ctl, x: Action, j: JobId)
    requires Guard(c, s, k, x) && Seated(s, L, a, k, x) && !x.Dispatch? && !x.Recover?
    requires Touched(s, k, x) == [j] && HandCounts(s, k)
    requires !Supplies(x) && !Executes(x)
    ensures var L' := Moved(c, s, a, k, x, L);
      && j in L' && (L'[j].Held? ==> L'[j] == Held(a)) && (L[j].Held? ==> L[j] == Held(a))
      && Weight(c, Effect(c, s, k, x), L'[j], Control(c, s, k, x), j) + (if MovesJob(s, k, x) then 1 else 0)
        <= Weight(c, s, L[j], k, j)
  {
    match x
    case Record =>
    case Acknowledge =>
    case ResetStats =>
    case CountRetry =>
    case Bury =>
    case Crash =>
    case _ =>
  }

  /** An action on one job takes weight off it. */
  lemma SingleWeight(c: Config, s: Store, L: Ledger, a: ActorId, k: Ctl, x: Action, j: JobId)
    requires Guard(c, s, k, x) && Seated(s, L, a, k, x) && !x.Dispatch? && !x.Recover?
    requires Touched(s, k, x) == [j] && HandCounts(s, k)
    ensures var L' := Moved(c, s, a, k, x, L);
      && j in L' && (L'[j].Held? ==> L'[j] == Held(a)) && (L[j].Held? ==> L[j] == Held(a))
      && Weight(c, Effect(c, s, k, x), L'[j], Control(c, s, k, x), j) + (if MovesJob(s, k, x) then 1 else 0)
        <= Weight(c, s, L[j], k, j)
  {
    if Supplies(x) {
      SingleWeightSupply(c, s, L, a, k, x, j);
    } else if Executes(x) {
      SingleWeightFlight(c, s, L, a, k, x, j);
    } else {
      SingleWeightBooks(c, s, L, a, k, x, j);
    }
  }

  lemma DispatchWeight(c: Config, s: Store, L: Ledger, js: seq<JobId>, j: JobId)
    requires BatchIn(L, js, Delayed) && j in js
    ensures j in LedgerMove(L, js)
    ensures Weight(c, s.Move(js), LedgerMove(L, js)[j], Idle, j) < Weight(c, s, L[j], Idle, j)
  {
    PipelineResults.MoveFrame(s, js);
    LedgerMoveAt(L, js, j);
  }

  lemma RecoverWeight(c: Config, s: Store, L: Ledger, js: seq<JobId>, s': Store, L': Ledger, k': Ctl, j: JobId)
    requires AllCount(c, s, L) && BatchIn(L, js, Flying) && NoDup(js) && j in js
    requires s'.q == s.q.Recover(js, s.now, c.orphanMaxRetry)
    requires L' == LedgerRecover(s.q, js, s.now, c.orphanMaxRetry, L)
    ensures j in L' && Weight(c, s', L'[j], k', j) < Weight(c, s, L[j], Idle, j)
  {
    assert JobCounts(c, s, L, j);
    RecoverFrame(s.q, js, s.now, c.orphanMaxRetry, j);
    RecoverFate(s.q, js, s.now, c.orphanMaxRetry, L, j);
  }

  // ---- All jobs together ----

  ghost function Holder(s: State, p: Place): Ctl {
    if p.Held? then s.At(p.a) else Idle
  }

  ghost function JobWeight(c: Config, s: State, L: Ledger, j: JobId): nat
    requires j in L
  {
    Weight(c, s.store, L[j], Holder(s, L[j]), j)
  }

  ghost function Weights(c: Config, s: State, L: Ledger): map<JobId, nat> {
    map j | j in L :: JobWeight(c, s, L, j)
  }

  /** A job the action does not touch keeps its weight. */
  lemma UntouchedWeight(c: Config, s: State, L: Ledger, a: ActorId, t: Store, L': Ledger, k': Ctl, i: JobId)
    requires OwnHand(L, a, s.At(a)) && i in L && SamePlace(L, L', i) && Retries(t, i) == Retries(s.store, i)
    requires Hand(s.At(a)) != Some(i)
    ensures i in L' && JobWeight(c, State(t, s.actors[a := k']), L', i) == JobWeight(c, s, L, i)
  {
  }

  lemma SingleWeights(c: Config, s: State, L: Ledger, a: ActorId, x: Action, i: JobId)
    requires Enabled(c, s, By(a, x)) && !x.Dispatch? && !x.Recover? && i in L
    requires Seated(s.store, L, a, s.At(a), x) && OwnHand(L, a, s.At(a)) && HandCounts(s.store, s.At(a))
    ensures var L' := Moved(c, s.store, a, s.At(a), x, L);
      && i in L'
      && JobWeight(c, Next(c, s, By(a, x)), L', i)
           + (if MovesJob(s.store, s.At(a), x) && i in Touched(s.store, s.At(a), x) then 1 else 0)
             <= JobWeight(c, s, L, i)
  {
    var k := s.At(a);
    if i in Touched(s.store, k, x) {
      SingleWeight(c, s.store, L, a, k, x, i);
    } else {
      OthersSameCounts(c, s.store, k, x, i);
      OthersSamePlace(c, s.store, L, a, k, x, i);
      UntouchedWeight(c, s, L, a, Effect(c, s.store, k, x), Moved(c, s.store, a, k, x, L), Control(c, s.store, k, x),
        i);
    }
  }

  lemma DispatchWeights(c: Config, s: State, L: Ledger, a: ActorId, js: seq<JobId>, t: Store, i: JobId)
    requires t == s.store.Move(js) && BatchIn(L, js, Delayed) && OwnHand(L, a, s.At(a)) && Hand(s.At(a)).None? && i in L
    ensures i in LedgerMove(L, js)
    ensures JobWeight(c, State(t, s.actors[a := Idle]), LedgerMove(L, js), i) + (if i in js then 1 else 0)
      <= JobWeight(c, s, L, i)
  {
    PipelineResults.MoveFrame(s.store, js);
    LedgerMoveAt(L, js, i);
    if i in js {
      DispatchWeight(c, s.store, L, js, i);
    } else {
      UntouchedWeight(c, s, L, a, t, LedgerMove(L, js), Idle, i);
    }
  }

  lemma RecoverWeights(c: Config, s: State, L: Ledger, a: ActorId, js: seq<JobId>, t: Store, L': Ledger, k': Ctl,
                       i: JobId)
    requires t.q == s.store.q.Recover(js, s.store.now, c.orphanMaxRetry) && BatchIn(L, js, Flying) && NoDup(js)
    requires L' == LedgerRecover(s.store.q, js, s.store.now, c.orphanMaxRetry, L)
    requires AllCount(c, s.store, L) && OwnHand(L, a, s.At(a)) && Hand(s.At(a)).None? && i in L
    ensures i in L'
    ensures JobWeight(c, State(t, s.actors[a := k']), L', i) + (if i in js then 1 else 0) <= JobWeight(c, s, L, i)
  {
    LedgerRecoverAt(s.store.q, js, s.store.now, c.orphanMaxRetry, L, i);
    RecoverFrame(s.store.q, js, s.store.now, c.orphanMaxRetry, i);
    if i in js {
      RecoverWeight(c, s.store, L, js, t, L', k', i);
    } else {
      UntouchedWeight(c, s, L, a, t, L', k', i);
    }
  }

  lemma BatchWeights(c: Config, s: State, L: Ledger, a: ActorId, x: Action, t: Store, L': Ledger, k': Ctl, i: JobId)
    requires Enabled(c, s, By(a, x)) && t == Effect(c, s.store, s.At(a), x) && L' == Moved(c, s.store, a, s.At(a), x, L)
    requires k' == Control(c, s.store, s.At(a), x) && (x.Dispatch? || x.Recover?) && i in L
    requires Seated(s.store, L, a, s.At(a), x) && OwnHand(L, a, s.At(a)) && AllCount(c, s.store, L)
    ensures i in L'
    ensures JobWeight(c, State(t, s.actors[a := k']), L', i) + (if i in x.js then 1 else 0) <= JobWeight(c, s, L, i)
  {
    if x.Dispatch? {
      DispatchWeights(c, s, L, a, x.js, t, i);
    } else {
      RecoverWeights(c, s, L, a, x.js, t, L', k', i);
    }
  }

  /** A step of an actor raises no job's weight, and lowers the weight of every job it moves. */
  lemma ActionWeights(c: Config, s: State, L: Ledger, a: ActorId, x: Action, i: JobId)
    requires Enabled(c, s, By(a, x)) && i in L
    requires Seated(s.store, L, a, s.At(a), x) && OwnHand(L, a, s.At(a)) && Counted(c, s, L)
    ensures var L' := Moved(c, s.store, a, s.At(a), x, L);
      && i in L'
      && JobWeight(c, Next(c, s, By(a, x)), L', i)
           + (if MovesJob(s.store, s.At(a), x) && i in Touched(s.store, s.At(a), x) then 1 else 0)
             <= JobWeight(c, s, L, i)
  {
    if x.Dispatch? || x.Recover? {
      BatchWeights(c, s, L, a, x, Effect(c, s.store, s.At(a), x), Moved(c, s.store, a, s.At(a), x, L),
        Control(c, s.store, s.At(a), x), i);
    } else {
      SingleWeights(c, s, L, a, x, i);
    }
  }

  lemma MoverTouches(c: Config, s: Store, L: Ledger, a: ActorId, k: Ctl, x: Action)
    requires Guard(c, s, k, x) && MovesJob(s, k, x) && Seated(s, L, a, k, x)
    ensures Touched(s, k, x) != [] && Touched(s, k, x)[0] in L
  {
    match x
    case Fetch(_, _) =>
    case Poll =>
    case CheckRoom =>
    case CheckRate(_) =>
    case Push =>
    case Delay(_) =>
    case DelayFixed =>
    case Dispatch(_) =>
    case Pop =>
    case Settle(_, _) =>
    case Record =>
    case Acknowledge =>
    case CountRetry =>
    case Bury =>
    case Recover(_) =>
    case Crash =>
    case _ =>
  }

  function Moving(s: State, e: Event): nat {
    if e.By? && MovesJob(s.store, s.At(e.a), e.x) then 1 else 0
  }

  /** The measure: it never rises, and every step that moves jobs lowers it. */
  lemma MeasureFalls(c: Config, s: State, L: Ledger, e: Event)
    requires Consistent(c, s, L) && Counted(c, s, L) && Enabled(c, s, e) && !e.Submit?
    requires Consistent(c, Next(c, s, e), MovedBy(c, s, e, L))
    ensures Sum(Weights(c, Next(c, s, e), MovedBy(c, s, e, L))) + Moving(s, e) <= Sum(Weights(c, s, L))
  {
    var s', L' := Next(c, s, e), MovedBy(c, s, e, L);
    if e.By? {
      ByMeasure(c, s, L, e.a, e.x, s', L');
    } else {
      EnvMeasure(c, s, L, s');
    }
  }

  lemma EnvMeasure(c: Config, s: State, L: Ledger, s': State)
    requires s'.actors == s.actors && s'.store.q == s.store.q
    ensures Sum(Weights(c, s', L)) <= Sum(Weights(c, s, L))
  {
    forall i | i in L
      ensures JobWeight(c, s', L, i) == JobWeight(c, s, L, i)
    {
      if L[i].Held? {
        assert s'.At(L[i].a) == s.At(L[i].a);
      }
    }
    WeightsKept(c, s, L, s', L);
  }

  lemma ByMeasure(c: Config, s: State, L: Ledger, a: ActorId, x: Action, s': State, L': Ledger)
    requires Consistent(c, s, L) && Counted(c, s, L) && Enabled(c, s, By(a, x))
    requires s' == Next(c, s, By(a, x)) && L' == Moved(c, s.store, a, s.At(a), x, L)
    requires L'.Keys == s'.store.q.groups.Keys
    ensures Sum(Weights(c, s', L')) + Moving(s, By(a, x)) <= Sum(Weights(c, s, L))
  {
    assert OwnHand(L, a, s.At(a)) && OwnRun(c, s.store, L, s.At(a));
    Seating(c, s.store, L, a, s.At(a), x);
    PipelineResults.GroupsKept(c, s.store, s.At(a), x);
    SeatedMeasure(c, s, L, a, x, s', L');
  }

  lemma SeatedMeasure(c: Config, s: State, L: Ledger, a: ActorId, x: Action, s': State, L': Ledger)
    requires OwnHand(L, a, s.At(a)) && Seated(s.store, L, a, s.At(a), x) && Counted(c, s, L) && Enabled(c, s, By(a, x))
    requires s' == Next(c, s, By(a, x)) && L' == Moved(c, s.store, a, s.At(a), x, L) && L'.Keys == L.Keys
    ensures Sum(Weights(c, s', L')) + Moving(s, By(a, x)) <= Sum(Weights(c, s, L))
  {
    forall i | i in L
      ensures JobWeight(c, s', L', i) <= JobWeight(c, s, L, i)
    {
      ActionWeights(c, s, L, a, x, i);
    }
    if Moving(s, By(a, x)) == 1 {
      MoverTouches(c, s.store, L, a, s.At(a), x);
      var i := Touched(s.store, s.At(a), x)[0];
      ActionWeights(c, s, L, a, x, i);
      WeightsFall(c, s, L, s', L', i, 1);
    } else {
      WeightsKept(c, s, L, s', L');
    }
  }

  lemma WeightsKept(c: Config, s: State, L: Ledger, s': State, L': Ledger)
    requires L'.Keys == L.Keys && forall i :: i in L ==> JobWeight(c, s', L', i) <= JobWeight(c, s, L, i)
    ensures Sum(Weights(c, s', L')) <= Sum(Weights(c, s, L))
  {
    SumMono(Weights(c, s, L), Weights(c, s', L'));
  }

  lemma WeightsFall(c: Config, s: State, L: Ledger, s': State, L': Ledger, j: JobId, n: nat)
    requires L'.Keys == L.Keys && forall i :: i in L ==> JobWeight(c, s', L', i) <= JobWeight(c, s, L, i)
    requires j in L && JobWeight(c, s', L', j) + n <= JobWeight(c, s, L, j)
    ensures Sum(Weights(c, s', L')) + n <= Sum(Weights(c, s, L))
  {
    SumFalls(Weights(c, s, L), Weights(c, s', L'), j, n);
  }

  // ---- Whole runs ----

  /** How many steps of the run move jobs. */
  ghost function JobMoves(c: Config, s: State, es: seq<Event>): nat
    decreases |es|
  {
    if es == [] || !Enabled(c, s, es[0]) then 0
    else Moving(s, es[0]) + JobMoves(c, Next(c, s, es[0]), es[1..])
  }

  /** How often a job can be moved. */
  function MovesPerJob(c: Config): nat {
    12 * (MaxRetry(c) + 1)
  }

  /** How often n jobs can be moved. */
  function Allowance(c: Config, n: nat): nat {
    if n == 0 then 0 else Allowance(c, n - 1) + MovesPerJob(c)
  }

  lemma AllowanceIs(c: Config, n: nat)
    ensures Allowance(c, n) == MovesPerJob(c) * n
  {
  }

  lemma NewJobWeight(c: Config, s: State, L: Ledger, e: Event, s': State, i: JobId)
    requires Enabled(c, s, e) && e.Submit? && s' == Next(c, s, e)
    ensures i in L && i != e.j ==> JobWeight(c, s', L[e.j := Waiting], i) == JobWeight(c, s, L, i)
    ensures JobWeight(c, s', L[e.j := Waiting], e.j) <= MovesPerJob(c)
  {
  }

  /** A new job brings its own weight. */
  lemma SubmitMeasure(c: Config, s: State, L: Ledger, e: Event, s': State)
    requires L.Keys == s.store.q.groups.Keys && Enabled(c, s, e) && e.Submit? && s' == Next(c, s, e)
    ensures Sum(Weights(c, s', L[e.j := Waiting])) <= Sum(Weights(c, s, L)) + MovesPerJob(c)
  {
    var m, m' := Weights(c, s, L), Weights(c, s', L[e.j := Waiting]);
    NewJobWeight(c, s, L, e, s', e.j);
    SumAt(m', e.j);
    forall i | i in m
      ensures i in m' - {e.j} && (m' - {e.j})[i] <= m[i]
    {
      NewJobWeight(c, s, L, e, s', i);
    }
    assert (m' - {e.j}).Keys == m.Keys;
    SumMono(m, m' - {e.j});
  }

  lemma SubmitCounts(c: Config, s: State, e: Event, s': State)
    requires Enabled(c, s, e) && s' == Next(c, s, e)
    ensures |s'.store.q.groups| == |s.store.q.groups| + if e.Submit? then 1 else 0
  {
    if e.By? {
      PipelineResults.GroupsKept(c, s.store, s.At(e.a), e.x);
    } else if e.Submit? {
      assert s'.store.q.groups == s.store.q.groups[e.j := e.g];
      assert s'.store.q.groups - {e.j} == s.store.q.groups;
    }
  }

  /** A step spends weight on the jobs it moves; only a new job brings weight. */
  lemma StepMeasure(c: Config, s: State, L: Ledger, e: Event, s': State, L': Ledger)
    requires Consistent(c, s, L) && Counted(c, s, L) && Enabled(c, s, e)
    requires s' == Next(c, s, e) && L' == MovedBy(c, s, e, L) && Consistent(c, s', L')
    ensures Sum(Weights(c, s', L')) + Moving(s, e) <= Sum(Weights(c, s, L)) + if e.Submit? then MovesPerJob(c) else 0
  {
    if e.Submit? {
      SubmitMeasure(c, s, L, e, s');
    } else {
      MeasureFalls(c, s, L, e);
    }
  }

  lemma {:induction false} MovesBounded(c: Config, s: State, L: Ledger, es: seq<Event>, s': State)
    requires InTime(c)
    requires Consistent(c, s, L) && Counted(c, s, L) && SparingRun(c, s, es, s')
    ensures JobMoves(c, s, es) + Allowance(c, |s.store.q.groups|)
      <= Sum(Weights(c, s, L)) + Allowance(c, |s'.store.q.groups|)
    decreases |es|
  {
    if es != [] {
      var m := Next(c, s, es[0]);
      StepKeeps(c, s, L, es[0]);
      StepCounted(c, s, L, es[0]);
      StepMeasure(c, s, L, es[0], m, MovedBy(c, s, es[0], L));
      SubmitCounts(c, s, es[0], m);
      MovesBounded(c, m, MovedBy(c, s, es[0], L), es[1..], s');
    }
  }

  /** Termination: from any reachable state on, the steps that move jobs are at most a fixed number for each job
      submitted by then or later; without new submissions they run out. */
  lemma PipelineTerminates(c: Config, now: nat, before: seq<Event>, s: State, es: seq<Event>, s': State)
    requires InTime(c)
    requires SparingRun(c, Start(now), before, s) && SparingRun(c, s, es, s')
    ensures JobMoves(c, s, es) <= MovesPerJob(c) * |s'.store.q.groups|
  {
    StartConsistent(c, now);
    var L := RunCounted(c, Start(now), map[], before, s);
    MovesBounded(c, s, L, es, s');
    WeightsBounded(c, s, L);
    AllowanceIs(c, |s'.store.q.groups|);
  }

  lemma WeightsBounded(c: Config, s: State, L: Ledger)
    requires L.Keys == s.store.q.groups.Keys
    ensures Sum(Weights(c, s, L)) <= Allowance(c, |s.store.q.groups|)
  {
    var m := Weights(c, s, L);
    assert forall j :: j in m ==> m[j] <= MovesPerJob(c);
    SumBound(m, MovesPerJob(c));
    assert m.Keys == s.store.q.groups.Keys;
    AllowanceIs(c, |s.store.q.groups|);
  }
}
