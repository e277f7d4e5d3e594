/** The lifecycle of one group under any number of finalizers, watchers and acknowledgements. Statuses move by
    compare-and-set on what was read earlier; the aggregation lock may expire under its holder. */
module Lifecycle {
  import opened Base
  import opened StateMachine
  import opened Lock

  datatype Task = Finalize | ForceFail

  /** Where an actor's program stands between two of its awaits. */
  datatype Ctl =
    | Idle
    | Advancing(from: Status, to: Status)   // watcher: a transition that needs no lock
    | Acquiring(task: Task)
    // inside the aggregation lock
    | Entered(task: Task)
    | Starting                              // found RUNNING
    | Aggregating(seen: nat)                // found or made AGGREGATING, when the list had `seen` results
    | Closing                               // the result is stored
    | Failing(found: Status)                // forced: found a status that is not terminal
    | Leaving(answer: bool)

  datatype Action =
    | Observe(to: Status)
    | Swap
    | Begin(task: Task)
    | TryLock
    | GiveUp
    | ReadMeta
    | Aggregate(covered: nat)
    | Throw
    | Release
    | Crash

  /** An acknowledgement that completes the group counts all its jobs of that moment. */
  datatype Event =
    | FirstJob
    | Recorded
    | LastAck(jobs: nat)
    | Tick(d: nat)
    | By(a: ActorId, x: Action)

  /** The group's status, how many results it has, how many of them the stored report covers, the lock, the actors,
      and five records: the jobs counted by the last acknowledgement that completed the group, closing and failing
      swaps that took effect, acknowledgements that revived a terminal group, and finalize calls that answered
      true. */
  datatype State = State(
    status: Option<Status>,
    results: nat,
    report: Option<nat>,
    counted: nat,
    lk: LockState,
    actors: map<ActorId, Ctl>,
    completions: nat,
    failures: nat,
    revivals: nat,
    trues: nat)
  {
    function At(a: ActorId): Ctl {
      if a in actors then actors[a] else Idle
    }

    predicate Ended() {
      status.Some? && IsTerminal(status.value)
    }
  }

  function Start(now: nat): State {
    State(None, 0, None, 0, Lock.Start(now), map[], 0, 0, 0, 0)
  }

  predicate Inside(k: Ctl) {
    k.Entered? || k.Starting? || k.Aggregating? || k.Closing? || k.Failing? || k.Leaving?
  }

  /** The edge an actor's next compare-and-set tries to take. */
  function Edge(k: Ctl): Option<(Status, Status)> {
    match k
    case Advancing(from, to) => Some((from, to))
    case Starting => Some((RUNNING, AGGREGATING))
    case Closing => Some((AGGREGATING, COMPLETED))
    case Failing(found) => Some((found, FAILED))
    case _ => None
  }

  predicate Guard(s: State, a: ActorId, x: Action) {
    var k := s.At(a);
    match x
    case Observe(to) => k.Idle? && s.status.Some? && IsValidTransition(s.status.value, to)
      && !RequiresLock(s.status.value, to)
    case Swap => Edge(k).Some?
    case Begin(task) => k.Idle? && a !in s.lk.holders && (task.ForceFail? ==> s.status == Some(AGGREGATING))
    case TryLock => k.Acquiring?
    case GiveUp => k.Acquiring? && !s.lk.Free()
    case ReadMeta => k.Entered?
    case Aggregate(covered) => k.Aggregating? && k.seen <= covered <= s.results
    case Throw => Inside(k) && !k.Leaving?
    case Release => k.Leaving? && a in s.lk.holders
    case Crash => true
  }

  /** What a fresh reading of the status leads to. */
  function AfterRead(task: Task, status: Option<Status>, results: nat): Ctl {
    if status.None? then Leaving(false)
    else if task.ForceFail? then if IsTerminal(status.value) then Leaving(false) else Failing(status.value)
    else if status.value == AGGREGATING then Aggregating(results)
    else if status.value == RUNNING then Starting
    else Leaving(false)
  }

  /** Where an actor goes after its compare-and-set. */
  function AfterSwap(k: Ctl, done: bool, results: nat): Ctl {
    match k
    case Starting => if done then Aggregating(results) else Leaving(false)
    case Closing => Leaving(done)
    case Failing(_) => Leaving(false)
    case _ => Idle
  }

  function Swapped(s: State, to: Status): State {
    s.(status := Some(to),
       completions := if to == COMPLETED then s.completions + 1 else s.completions,
       failures := if to == FAILED then s.failures + 1 else s.failures)
  }

  function Act(s: State, a: ActorId, x: Action, ttl: nat): State
    requires Guard(s, a, x)
  {
    var k := s.At(a);
    match x
    case Observe(to) => s.(actors := s.actors[a := Advancing(s.status.value, to)])
    case Swap =>
      var (from, to) := Edge(k).value;
      var done := s.status == Some(from);
      (if done then Swapped(s, to) else s).(actors := s.actors[a := AfterSwap(k, done, s.results)])
    case Begin(task) => s.(actors := s.actors[a := Acquiring(task)])
    case TryLock => if s.lk.Free() then s.(lk := s.lk.Take(a, ttl), actors := s.actors[a := Entered(k.task)]) else s
    case GiveUp => s.(actors := s.actors[a := Idle])
    case ReadMeta => s.(actors := s.actors[a := AfterRead(k.task, s.status, s.results)])
    case Aggregate(covered) => s.(report := Some(covered), actors := s.actors[a := Closing])
    case Throw => s.(actors := s.actors[a := Leaving(false)])
    case Release =>
      s.(lk := s.lk.Release(a), actors := s.actors[a := Idle], trues := if k.answer then s.trues + 1 else s.trues)
    case Crash => s.(lk := s.lk.Abandon(a), actors := s.actors[a := Idle])
  }

  predicate Enabled(s: State, e: Event) {
    match e
    case FirstJob => s.status.None?
    case Recorded => s.status.Some?
    case LastAck(jobs) => s.status.Some? && 1 <= jobs <= s.results
    case By(a, x) => Guard(s, a, x)
    case _ => true
  }

  function Next(s: State, e: Event, ttl: nat): State
    requires Enabled(s, e)
  {
    match e
    case FirstJob => s.(status := Some(CREATED))
    case Recorded => s.(results := s.results + 1)
    case LastAck(jobs) =>
      s.(status := Some(AGGREGATING), counted := jobs, revivals := if s.Ended() then s.revivals + 1 else s.revivals)
    case Tick(d) => s.(lk := s.lk.(now := s.lk.now + d))
    case By(a, x) => Act(s, a, x, ttl)
  }

  ghost predicate Run(s: State, es: seq<Event>, s': State, ttl: nat)
    decreases |es|
  {
    if es == [] then s == s' else Enabled(s, es[0]) && Run(Next(s, es[0], ttl), es[1..], s', ttl)
  }

  // ---- What every reachable state satisfies ----

  /** What an actor is about to swap is an edge of the table, and nobody closes without a stored result. */
  ghost predicate CtlOk(s: State, k: Ctl) {
    && (Edge(k).Some? ==> IsValidTransition(Edge(k).value.0, Edge(k).value.1))
    && (k.Advancing? ==> !RequiresLock(k.from, k.to))
    && (k.Closing? ==> s.report.Some?)
    && (k.Aggregating? ==> k.seen <= s.results)
  }

  ghost function Trues(s: State): set<ActorId> {
    set a | a in s.actors && s.At(a) == Leaving(true)
  }

  /** Terminal transitions, each undone by at most one revival; true answers cover closings only. */
  ghost predicate Balanced(s: State) {
    && s.completions + s.failures == s.revivals + (if s.Ended() then 1 else 0)
    && s.trues + |Trues(s)| <= s.completions
    && (s.status == Some(COMPLETED) ==> s.report.Some?)
  }

  ghost predicate Inv(s: State, ttl: nat) {
    && s.lk.Inv(ttl) && Balanced(s) && s.counted <= s.results
    && (forall a :: CtlOk(s, s.At(a)) && (a in s.lk.holders <==> Inside(s.At(a))))
  }

  lemma ClosesOnlyTwoWays(from: Status, to: Status)
    requires IsValidTransition(from, to)
    ensures !IsTerminal(from)
    ensures to == COMPLETED ==> from == AGGREGATING
  {
  }

  lemma NewCtlOk(s: State, a: ActorId, x: Action, ttl: nat)
    requires Guard(s, a, x) && CtlOk(s, s.At(a))
    ensures CtlOk(Act(s, a, x, ttl), Act(s, a, x, ttl).At(a))
  {
    TableMeans(RUNNING, AGGREGATING);
    TableMeans(AGGREGATING, COMPLETED);
    if x.ReadMeta? && s.status.Some? {
      TableMeans(s.status.value, FAILED);
    }
  }

  lemma TruesExcept(s: State, a: ActorId)
    ensures |Trues(s)| == |Trues(s) - {a}| + if s.At(a) == Leaving(true) then 1 else 0
  {
  }

  lemma OtherTrues(s: State, a: ActorId, s': State)
    requires forall b :: b != a ==> s'.At(b) == s.At(b)
    ensures Trues(s') - {a} == Trues(s) - {a}
  {
  }

  /** What one program does to the two records of true answers, its own about to be given included. */
  lemma ActAnswers(s: State, a: ActorId, x: Action, ttl: nat)
    requires Guard(s, a, x)
    ensures var s' := Act(s, a, x, ttl);
      s'.trues + (if s'.At(a) == Leaving(true) then 1 else 0) + s.completions
        <= s.trues + (if s.At(a) == Leaving(true) then 1 else 0) + s'.completions
  {
  }

  lemma ActTrues(s: State, a: ActorId, x: Action, ttl: nat, s': State)
    requires Guard(s, a, x) && s' == Act(s, a, x, ttl) && s.trues + |Trues(s)| <= s.completions
    ensures s'.trues + |Trues(s')| <= s'.completions
  {
    ActAnswers(s, a, x, ttl);
    forall b | b != a
      ensures s'.At(b) == s.At(b)
    {
    }
    TruesExcept(s, a);
    TruesExcept(s', a);
    OtherTrues(s, a, s');
  }

  lemma SwapBooks(s: State, a: ActorId, ttl: nat)
    requires Guard(s, a, Swap) && CtlOk(s, s.At(a))
    requires s.completions + s.failures == s.revivals + (if s.Ended() then 1 else 0)
    requires s.status == Some(COMPLETED) ==> s.report.Some?
    ensures var s' := Act(s, a, Swap, ttl);
      && s'.completions + s'.failures == s'.revivals + (if s'.Ended() then 1 else 0)
      && (s'.status == Some(COMPLETED) ==> s'.report.Some?)
  {
    ClosesOnlyTwoWays(Edge(s.At(a)).value.0, Edge(s.At(a)).value.1);
  }

  lemma OtherBooks(s: State, a: ActorId, x: Action, ttl: nat)
    requires Guard(s, a, x) && !x.Swap?
    ensures var s' := Act(s, a, x, ttl);
      && s'.status == s.status && s'.completions == s.completions
      && s'.failures == s.failures && s'.revivals == s.revivals
      && (s.report.Some? ==> s'.report.Some?)
  {
  }

  lemma ActBalances(s: State, a: ActorId, x: Action, ttl: nat, s': State)
    requires Guard(s, a, x) && Balanced(s) && CtlOk(s, s.At(a)) && s' == Act(s, a, x, ttl)
    ensures Balanced(s')
  {
    ActTrues(s, a, x, ttl, s');
    if x.Swap? {
      SwapBooks(s, a, ttl);
    } else {
      OtherBooks(s, a, x, ttl);
    }
  }

  lemma ActKeepsLock(s: State, a: ActorId, x: Action, ttl: nat)
    requires Guard(s, a, x) && s.lk.Inv(ttl) && (a in s.lk.holders <==> Inside(s.At(a)))
    ensures var s' := Act(s, a, x, ttl); s'.lk.Inv(ttl) && (a in s'.lk.holders <==> Inside(s'.At(a)))
    ensures forall b :: b != a ==> (b in Act(s, a, x, ttl).lk.holders <==> b in s.lk.holders)
  {
    var s' := Act(s, a, x, ttl);
    if x.TryLock? && s.lk.Free() {
      TakeKeeps(s.lk, a, ttl);
    } else if x.Release? || x.Crash? {
      DropKeeps(s.lk, a, s'.lk, ttl);
    }
  }

  lemma StepKeeps(s: State, e: Event, ttl: nat)
    requires Enabled(s, e) && Inv(s, ttl)
    ensures Inv(Next(s, e, ttl), ttl)
  {
    var s' := Next(s, e, ttl);
    if e.By? {
      ActKeepsLock(s, e.a, e.x, ttl);
      ActBalances(s, e.a, e.x, ttl, s');
      NewCtlOk(s, e.a, e.x, ttl);
      forall b
        ensures CtlOk(s', s'.At(b)) && (b in s'.lk.holders <==> Inside(s'.At(b)))
      {
        if b != e.a {
          assert s'.At(b) == s.At(b) && CtlOk(s, s.At(b));
        }
      }
    } else {
      EnvKeeps(s, e, ttl);
    }
  }

  lemma EnvBalanced(s: State, e: Event, ttl: nat)
    requires Enabled(s, e) && !e.By? && Balanced(s)
    ensures Balanced(Next(s, e, ttl))
  {
    SameTrues(s, Next(s, e, ttl));
  }

  lemma SameTrues(s: State, s': State)
    requires s'.actors == s.actors
    ensures Trues(s') == Trues(s)
  {
  }

  lemma EnvLock(s: State, e: Event, ttl: nat)
    requires Enabled(s, e) && !e.By? && s.lk.Inv(ttl)
    ensures Next(s, e, ttl).lk.Inv(ttl) && Next(s, e, ttl).lk.holders == s.lk.holders
  {
    if e.Tick? {
      WaitKeeps(s.lk, e.d, ttl);
    }
  }

  lemma EnvCtl(s: State, e: Event, ttl: nat, b: ActorId)
    requires Enabled(s, e) && !e.By? && CtlOk(s, s.At(b))
    ensures Next(s, e, ttl).At(b) == s.At(b) && CtlOk(Next(s, e, ttl), s.At(b))
  {
  }

  lemma EnvKeeps(s: State, e: Event, ttl: nat)
    requires Enabled(s, e) && !e.By? && Inv(s, ttl)
    ensures Inv(Next(s, e, ttl), ttl)
  {
    var s' := Next(s, e, ttl);
    EnvLock(s, e, ttl);
    EnvBalanced(s, e, ttl);
    forall b
      ensures CtlOk(s', s'.At(b)) && (b in s'.lk.holders <==> Inside(s'.At(b)))
    {
      EnvCtl(s, e, ttl, b);
    }
    assert s'.counted <= s'.results;
  }

  lemma StartInv(now: nat, ttl: nat)
    ensures Inv(Start(now), ttl)
  {
  }

  lemma {:induction false} RunKeeps(s: State, es: seq<Event>, s': State, ttl: nat)
    requires Inv(s, ttl) && Run(s, es, s', ttl)
    ensures Inv(s', ttl)
    decreases |es|
  {
    if es != [] {
      StepKeeps(s, es[0], ttl);
      RunKeeps(Next(s, es[0], ttl), es[1..], s', ttl);
    }
  }

  // ---- Finalization safety ----

  /** In every reachable state, whatever the stale readings and expired locks: a completed group has its result
      stored, and every step but the unconditional write of an acknowledgement and the first enqueue moves the
      status along an edge of the table, if at all, and so out of no terminal state. */
  lemma FinalizationSafety(now: nat, es: seq<Event>, s: State, ttl: nat, a: ActorId, x: Action)
    requires Run(Start(now), es, s, ttl) && Guard(s, a, x)
    ensures s.status == Some(COMPLETED) ==> s.report.Some?
    ensures var s' := Act(s, a, x, ttl);
      s'.status != s.status ==> s.status.Some? && s'.status.Some? && IsValidTransition(s.status.value, s'.status.value)
    ensures s.Ended() ==> Act(s, a, x, ttl).status == s.status
  {
    StartInv(now, ttl);
    RunKeeps(Start(now), es, s, ttl);
    assert CtlOk(s, s.At(a));
    if x.Swap? {
      ClosesOnlyTwoWays(Edge(s.At(a)).value.0, Edge(s.At(a)).value.1);
    }
  }

  /** Beside the programs, the first enqueue creates the group, an acknowledgement that completes it makes it
      AGGREGATING whatever it was before, a terminal status included, and nothing else moves the status. */
  lemma OutsideMoves(s: State, e: Event, ttl: nat)
    requires Enabled(s, e) && !e.By?
    ensures Next(s, e, ttl).status == s.status
      || (e.FirstJob? && s.status.None? && Next(s, e, ttl).status == Some(CREATED))
      || (e.LastAck? && s.status.Some? && Next(s, e, ttl).status == Some(AGGREGATING))
    ensures e.FirstJob? || e.LastAck? ==> Next(s, e, ttl).status.Some? && !Next(s, e, ttl).Ended()
    ensures Next(s, e, ttl).results == s.results + if e.Recorded? then 1 else 0
  {
  }

  /** Each terminal transition is paid for by a revival or by the present terminal state. So finalize calls
      answer true at most once more than acknowledgements revived the group: at most once if none did. */
  lemma FinalizedOnce(now: nat, es: seq<Event>, s: State, ttl: nat)
    requires Run(Start(now), es, s, ttl)
    ensures s.completions + s.failures == s.revivals + (if s.Ended() then 1 else 0)
    ensures s.trues <= s.completions <= s.revivals + 1
    ensures s.revivals == 0 ==> s.trues <= 1
  {
    StartInv(now, ttl);
    RunKeeps(Start(now), es, s, ttl);
  }

  // ---- The closing swap ----

  /** A swap out of AGGREGATING, or to FAILED, by a lock holder whose lease has run out. */
  predicate Late(s: State, e: Event) {
    e.By? && e.x.Swap? && (s.At(e.a).Closing? || s.At(e.a).Failing?) && !s.lk.InTime(e.a)
  }

  /** Whether a late swap has taken effect since the last acknowledgement that completed the group. */
  predicate Mark(s: State, e: Event, was: bool)
    requires Enabled(s, e)
  {
    if e.LastAck? then false else was || (Late(s, e) && s.status == Some(Edge(s.At(e.a)).value.0))
  }

  ghost predicate Undercut(s: State, es: seq<Event>, was: bool, ttl: nat)
    decreases |es|
  {
    if es == [] || !Enabled(s, es[0]) then was
    else Undercut(Next(s, es[0], ttl), es[1..], Mark(s, es[0], was), ttl)
  }

  /** A run during which a, in time all along, does nothing but aggregate. */
  ghost predicate RunWithin(s: State, a: ActorId, es: seq<Event>, s': State, ttl: nat)
    decreases |es|
  {
    && s.lk.InTime(a)
    && if es == [] then s == s'
       else
         && Enabled(s, es[0]) && (es[0].By? && es[0].a == a ==> es[0].x.Aggregate?)
         && RunWithin(Next(s, es[0], ttl), a, es[1..], s', ttl)
  }

  /** While a aggregates in time, the status is AGGREGATING, or terminal because a late swap undercut a. */
  predicate Guarded(s: State, a: ActorId, undercut: bool) {
    && (s.At(a).Aggregating? || s.At(a).Closing?)
    && (if undercut then s.Ended() else s.status == Some(AGGREGATING))
  }

  lemma LateOrNobody(s: State, a: ActorId, b: ActorId, ttl: nat)
    requires Inv(s, ttl) && s.lk.InTime(a) && a != b && Inside(s.At(b))
    ensures !s.lk.InTime(b)
  {
  }

  /** Another actor's swap, if it is not a late one, leaves AGGREGATING and terminal states alone. */
  lemma OthersSwap(s: State, a: ActorId, b: ActorId, was: bool, ttl: nat)
    requires Guard(s, b, Swap) && CtlOk(s, s.At(b)) && (Inside(s.At(b)) ==> !s.lk.InTime(b))
    requires if was then s.Ended() else s.status == Some(AGGREGATING)
    ensures var s', undercut := Act(s, b, Swap, ttl), Mark(s, By(b, Swap), was);
      if undercut then s'.Ended() else s'.status == Some(AGGREGATING)
  {
    var (from, to) := Edge(s.At(b)).value;
    ClosesOnlyTwoWays(from, to);
    LockMeans(from, to);
  }

  lemma StepGuarded(s: State, a: ActorId, e: Event, was: bool, ttl: nat)
    requires Inv(s, ttl) && s.lk.InTime(a) && Guarded(s, a, was) && Enabled(s, e)
    requires e.By? && e.a == a ==> e.x.Aggregate?
    ensures Guarded(Next(s, e, ttl), a, Mark(s, e, was))
  {
    if e.By? && e.a != a {
      assert Next(s, e, ttl).At(a) == s.At(a);
      if e.x.Swap? {
        assert CtlOk(s, s.At(e.a));
        if Inside(s.At(e.a)) {
          LateOrNobody(s, a, e.a, ttl);
        }
        OthersSwap(s, a, e.a, was, ttl);
      } else {
        OtherBooks(s, e.a, e.x, ttl);
      }
    }
  }

  lemma {:induction false} RunGuarded(s: State, a: ActorId, es: seq<Event>, s': State, was: bool, ttl: nat)
    requires Inv(s, ttl) && Guarded(s, a, was) && RunWithin(s, a, es, s', ttl)
    ensures Guarded(s', a, Undercut(s, es, was, ttl))
    decreases |es|
  {
    if es != [] {
      StepKeeps(s, es[0], ttl);
      StepGuarded(s, a, es[0], was, ttl);
      RunGuarded(Next(s, es[0], ttl), a, es[1..], s', Mark(s, es[0], was), ttl);
    }
  }

  /** The closing swap: a finalizer that found AGGREGATING, or made it so, and closes within its time to live
      succeeds if and only if no holder whose own lease had run out swapped the status away under it. */
  lemma ClosingSwap(now: nat, before: seq<Event>, s: State, a: ActorId, es: seq<Event>, s': State, ttl: nat)
    requires Run(Start(now), before, s, ttl) && s.At(a).Aggregating? && s.status == Some(AGGREGATING)
    requires RunWithin(s, a, es, s', ttl) && s'.At(a).Closing?
    ensures Act(s', a, Swap, ttl).At(a) == Leaving(!Undercut(s, es, false, ttl))
    ensures !Undercut(s, es, false, ttl) <==> s'.status == Some(AGGREGATING)
  {
    StartInv(now, ttl);
    RunKeeps(Start(now), before, s, ttl);
    RunGuarded(s, a, es, s', false, ttl);
  }

  ghost predicate AllInTime(s: State, es: seq<Event>, ttl: nat)
    decreases |es|
  {
    es != [] && Enabled(s, es[0]) ==> !Late(s, es[0]) && AllInTime(Next(s, es[0], ttl), es[1..], ttl)
  }

  lemma {:induction false} InTimeNotUndercut(s: State, es: seq<Event>, ttl: nat)
    requires AllInTime(s, es, ttl)
    ensures !Undercut(s, es, false, ttl)
    decreases |es|
  {
    if es != [] && Enabled(s, es[0]) {
      InTimeNotUndercut(Next(s, es[0], ttl), es[1..], ttl);
    }
  }

  /** So it cannot lose where every holder swaps in time. */
  lemma ClosingCannotLose(now: nat, before: seq<Event>, s: State, a: ActorId, es: seq<Event>, s': State, ttl: nat)
    requires Run(Start(now), before, s, ttl) && s.At(a).Aggregating? && s.status == Some(AGGREGATING)
    requires RunWithin(s, a, es, s', ttl) && s'.At(a).Closing? && AllInTime(s, es, ttl)
    ensures Act(s', a, Swap, ttl).status == Some(COMPLETED) && Act(s', a, Swap, ttl).At(a) == Leaving(true)
  {
    ClosingSwap(now, before, s, a, es, s', ttl);
    InTimeNotUndercut(s, es, ttl);
  }

  // ---- What the stored report covers ----

  /** What a has read, or what is stored once a has stored, covers the jobs counted. */
  predicate Covering(s: State, a: ActorId) {
    || (s.At(a).Aggregating? && s.counted <= s.At(a).seen)
    || (s.At(a).Closing? && s.report.Some? && s.counted <= s.report.value)
  }

  /** An event that counts no job beyond what a has read or what is stored, and replaces no stored report by one
      that falls short of the jobs counted. Until it closes, a itself does nothing but aggregate. */
  predicate Harmless(s: State, a: ActorId, e: Event) {
    match e
    case LastAck(jobs) =>
      && (s.At(a).Aggregating? ==> jobs <= s.At(a).seen)
      && (s.At(a).Closing? && s.report.Some? ==> jobs <= s.report.value)
    case By(b, x) =>
      if b == a then x.Aggregate?
      else x.Aggregate? && s.At(a).Closing? ==> s.counted <= x.covered
    case _ => true
  }

  ghost predicate HarmlessRun(s: State, a: ActorId, es: seq<Event>, s': State, ttl: nat)
    decreases |es|
  {
    if es == [] then s == s'
    else Enabled(s, es[0]) && Harmless(s, a, es[0]) && HarmlessRun(Next(s, es[0], ttl), a, es[1..], s', ttl)
  }

  lemma StepCovers(s: State, a: ActorId, e: Event, ttl: nat)
    requires Covering(s, a) && Enabled(s, e) && Harmless(s, a, e)
    ensures Covering(Next(s, e, ttl), a)
  {
    if !(e.By? && e.a == a) {
      assert Next(s, e, ttl).At(a) == s.At(a);
    }
  }

  lemma {:induction false} HarmlessCovers(s: State, a: ActorId, es: seq<Event>, s': State, ttl: nat)
    requires Covering(s, a) && HarmlessRun(s, a, es, s', ttl)
    ensures Covering(s', a)
    decreases |es|
  {
    if es != [] {
      StepCovers(s, a, es[0], ttl);
      HarmlessCovers(Next(s, es[0], ttl), a, es[1..], s', ttl);
    }
  }

  /** Whatever harmless events follow, when a is about to close the stored report covers the jobs counted. */
  ghost predicate AlwaysCovers(s: State, a: ActorId, ttl: nat) {
    forall es, s' :: HarmlessRun(s, a, es, s', ttl) && s'.At(a).Closing? ==>
      s'.report.Some? && s'.counted <= s'.report.value
  }

  /** After a harmful event a can close at once, or after storing no more than it has read. */
  lemma HarmShows(s: State, a: ActorId, e: Event, ttl: nat) returns (es: seq<Event>, s': State)
    requires Inv(s, ttl) && Covering(s, a) && Enabled(s, e) && !Harmless(s, a, e)
    requires e.By? && e.a == a ==> e.x.Aggregate?
    ensures HarmlessRun(Next(s, e, ttl), a, es, s', ttl) && s'.At(a).Closing? && s'.report.Some?
    ensures s'.report.value < s'.counted
  {
    var m := Next(s, e, ttl);
    assert m.At(a) == s.At(a) && CtlOk(s, s.At(a));
    if s.At(a).Closing? {
      es, s' := [], m;
    } else {
      var store := By(a, Aggregate(s.At(a).seen));
      es, s' := [store], Next(m, store, ttl);
      assert HarmlessRun(s', a, [], s', ttl);
      assert [store][1..] == [];
    }
  }

  /** While what a finalizer has read or stored covers the jobs counted, exactly the harmless events keep it so: an
      event is harmless if and only if, whatever harmless events follow, the finalizer closes on a report that covers
      every job counted by the last acknowledgement that completed the group. */
  lemma CoversExactly(now: nat, before: seq<Event>, s: State, a: ActorId, e: Event, ttl: nat)
    requires Run(Start(now), before, s, ttl) && Covering(s, a)
    requires Enabled(s, e) && (e.By? && e.a == a ==> e.x.Aggregate?)
    ensures Harmless(s, a, e) <==> AlwaysCovers(Next(s, e, ttl), a, ttl)
  {
    StartInv(now, ttl);
    RunKeeps(Start(now), before, s, ttl);
    if Harmless(s, a, e) {
      StepCovers(s, a, e, ttl);
      forall es, s' | HarmlessRun(Next(s, e, ttl), a, es, s', ttl) && s'.At(a).Closing?
        ensures s'.report.Some? && s'.counted <= s'.report.value
      {
        HarmlessCovers(Next(s, e, ttl), a, es, s', ttl);
      }
    } else {
      var es, s' := HarmShows(s, a, e, ttl);
    }
  }

  /** So the report a finalizer closes on covers every job counted by the last acknowledgement that completed the
      group, if only harmless events come between its reading of the status and its closing. */
  lemma ReportCovers(now: nat, before: seq<Event>, s: State, a: ActorId, es: seq<Event>, s': State, ttl: nat)
    requires Run(Start(now), before, s, ttl) && s.At(a) == Aggregating(s.results)
    requires HarmlessRun(s, a, es, s', ttl) && s'.At(a).Closing?
    ensures var done := Act(s', a, Swap, ttl); done.report.Some? && done.counted <= done.report.value
  {
    StartInv(now, ttl);
    RunKeeps(Start(now), before, s, ttl);
    HarmlessCovers(s, a, es, s', ttl);
  }

  // ---- A late holder ----

  lemma {:induction false} Extend(s0: State, es: seq<Event>, s: State, e: Event, ttl: nat)
    requires Run(s0, es, s, ttl) && Enabled(s, e)
    ensures Run(s0, es + [e], Next(s, e, ttl), ttl)
    decreases |es|
  {
    if es == [] {
      assert es + [e] == [e];
      assert Run(Next(s, e, ttl), [], Next(s, e, ttl), ttl);
    } else {
      Extend(Next(s0, es[0], ttl), es[1..], s, e, ttl);
      assert (es + [e])[1..] == es[1..] + [e];
    }
  }

  lemma Go(s0: State, es: seq<Event>, s: State, e: Event, ttl: nat) returns (es': seq<Event>, s': State)
    requires Run(s0, es, s, ttl) && Enabled(s, e)
    ensures s' == Next(s, e, ttl) && Run(s0, es', s', ttl)
  {
    Extend(s0, es, s, e, ttl);
    es', s' := es + [e], Next(s, e, ttl);
  }

  /** An actor takes the lock. */
  lemma Enters(s0: State, es: seq<Event>, s: State, a: ActorId, ttl: nat) returns (es': seq<Event>, s': State)
    requires Run(s0, es, s, ttl) && s.At(a).Idle? && a !in s.lk.holders && s.lk.Free()
    ensures Run(s0, es', s', ttl)
    ensures s' == s.(lk := s.lk.Take(a, ttl), actors := s.actors[a := Entered(Finalize)])
  {
    es', s' := Go(s0, es, s, By(a, Begin(Finalize)), ttl);
    es', s' := Go(s0, es', s', By(a, TryLock), ttl);
  }

  /** An actor finalizes a group found AGGREGATING, up to its closing swap. */
  lemma Finalizes(s0: State, es: seq<Event>, s: State, a: ActorId, ttl: nat) returns (es': seq<Event>, s': State)
    requires Run(s0, es, s, ttl) && s.At(a).Idle? && a !in s.lk.holders && s.lk.Free()
    requires s.status == Some(AGGREGATING)
    ensures Run(s0, es', s', ttl)
    ensures s' == s.(report := Some(s.results), lk := s.lk.Take(a, ttl), actors := s.actors[a := Closing])
  {
    es', s' := Enters(s0, es, s, a, ttl);
    es', s' := Go(s0, es', s', By(a, ReadMeta), ttl);
    es', s' := Go(s0, es', s', By(a, Aggregate(s.results)), ttl);
  }

  /** A group's only job is enqueued, recorded and acknowledged. */
  lemma FirstAcked(ttl: nat) returns (es: seq<Event>, s: State)
    ensures Run(Start(0), es, s, ttl)
    ensures s == Start(0).(status := Some(AGGREGATING), results := 1, counted := 1)
  {
    es, s := [], Start(0);
    es, s := Go(Start(0), es, s, FirstJob, ttl);
    es, s := Go(Start(0), es, s, Recorded, ttl);
    es, s := Go(Start(0), es, s, LastAck(1), ttl);
  }

  /** The closing swap of a holder in time can lose after all, whatever the time to live: to a finalizer that
      outlived its own lease. */
  lemma LateHolderWins(ttl: nat)
    requires ttl >= 1
    ensures exists es, s ::
      Run(Start(0), es, s, ttl) && s.At(1).Closing? && s.lk.InTime(1) && s.status != Some(AGGREGATING)
  {
    var es, s := FirstAcked(ttl);
    es, s := Finalizes(Start(0), es, s, 0, ttl);
    es, s := Go(Start(0), es, s, Event.Tick(ttl), ttl);
    es, s := Finalizes(Start(0), es, s, 1, ttl);
    es, s := Go(Start(0), es, s, By(0, Swap), ttl);
  }

  /** A second acknowledgement that completes the group, for a job added meanwhile, is all it takes for the group to be
      completed without that job in its report, by a finalizer in time and alone. */
  lemma LateJobUncovered(ttl: nat)
    requires ttl >= 1
    ensures exists es, s ::
      Run(Start(0), es, s, ttl) && s.status == Some(COMPLETED) && s.report == Some(1) && s.counted == 2
  {
    var es, s := FirstAcked(ttl);
    es, s := Finalizes(Start(0), es, s, 0, ttl);
    es, s := Go(Start(0), es, s, Recorded, ttl);
    es, s := Go(Start(0), es, s, LastAck(2), ttl);
    es, s := Go(Start(0), es, s, By(0, Swap), ttl);
  }
}
