/** The watcher: one cycle looks at every watched group and drives its lifecycle on. A cycle here runs by
    itself, with the clock standing still; interleavings are the subject of module Lifecycle. */
module Watcher {
  import opened Base
  import opened StateMachine
  import opened Lock
  import opened Results
  import opened Aggregation

  datatype Config = Config(lockTtlMs: nat, staleGroupThresholdMs: nat)

  /** A group's hash fields that decisions read (zero stands for absent), its results, stored report and locks. */
  datatype Group = Group(
    status: Option<Status>,
    registeredJobs: nat,
    totalJobs: nat,
    firstJobStartedAt: nat,
    aggregationStartAt: nat,
    timeoutAt: nat,
    tally: Tally,
    report: Option<Report>,
    aggregationLock: Option<Lease>,
    transitionLock: Option<Lease>)
  {
    predicate Is(s: Status) {
      status == Some(s)
    }

    predicate Ended() {
      status.Some? && IsTerminal(status.value)
    }

    predicate TimedOut(now: nat) {
      timeoutAt > 0 && now > timeoutAt
    }

    predicate LocksFree(now: nat) {
      Absent(aggregationLock, now) && Absent(transitionLock, now)
    }

    /** As many results as jobs, and at least one job. */
    predicate AllRecorded() {
      tally.successCount + tally.failedCount >= totalJobs > 0
    }

    /** The stored report is that of the whole result list. */
    predicate Reported() {
      report.Some? && IsReportOf(report.value, tally, totalJobs)
    }

    /** Never begun as far as the hash shows, or begun too long ago. */
    predicate Restartable(now: nat, threshold: nat) {
      aggregationStartAt == 0 || now - aggregationStartAt > threshold
    }

    /** What no step of the watcher touches. */
    predicate SameInputs(was: Group) {
      && registeredJobs == was.registeredJobs && totalJobs == was.totalJobs && timeoutAt == was.timeoutAt
      && firstJobStartedAt == was.firstJobStartedAt && tally == was.tally
    }
  }

  predicate Absent(lock: Option<Lease>, now: nat) {
    lock.None? || lock.value.expires <= now
  }

  /** A lock taken and given back within one instant. */
  function Cycled(lock: Option<Lease>, now: nat): Option<Lease> {
    if Absent(lock, now) then None else lock
  }

  /** What finalizing must do to a group: nothing without the lock or in another state than RUNNING and
      AGGREGATING; otherwise store the report of the whole list and complete the group. */
  predicate Finalized(was: Group, after: Group, now: nat) {
    && after.SameInputs(was) && after.transitionLock == was.transitionLock
    && after.aggregationLock == Cycled(was.aggregationLock, now)
    && if Absent(was.aggregationLock, now) && (was.Is(RUNNING) || was.Is(AGGREGATING))
       then after.Is(COMPLETED) && after.Reported()
         && after.aggregationStartAt == if was.Is(RUNNING) then now else was.aggregationStartAt
       else after == was.(aggregationLock := after.aggregationLock)
  }

  /** Where the watcher takes a group's status when it looks at it. */
  function Target(g: Group, c: Config, now: nat): Option<Status> {
    if g.status.None? || g.Ended() then g.status
    else if g.TimedOut(now) then
      if g.Is(AGGREGATING) && !Absent(g.aggregationLock, now) then g.status else Some(FAILED)
    else if g.Is(CREATED) then if g.registeredJobs >= g.totalJobs > 0 then Some(DISPATCHED) else g.status
    else if g.Is(DISPATCHED) then if g.firstJobStartedAt > 0 then Some(RUNNING) else g.status
    else if g.Is(RUNNING) then if g.AllRecorded() && g.LocksFree(now) then Some(COMPLETED) else g.status
    else if g.Restartable(now, c.staleGroupThresholdMs) && Absent(g.aggregationLock, now) then Some(COMPLETED)
      else g.status
  }

  /** The target in terms of the fields alone. A group of no or of a terminal status stays. Past its timeout any other
      is failed, but one in AGGREGATING under somebody's lock stays. Otherwise CREATED moves on when all jobs are
      registered, DISPATCHED when one has started, RUNNING is completed when all results are recorded and nobody holds
      either lock, AGGREGATING when its aggregation is unstarted or stale and nobody holds the lock. */
  lemma TargetMeans(g: Group, c: Config, now: nat)
    ensures g.status.None? || g.status == Some(COMPLETED) || g.status == Some(FAILED) ==>
      Target(g, c, now) == g.status
    ensures var timedOut := g.timeoutAt > 0 && now > g.timeoutAt;
      var idle := g.aggregationLock.None? || g.aggregationLock.value.expires <= now;
      var idleToo := g.transitionLock.None? || g.transitionLock.value.expires <= now;
      var recorded := g.tally.successCount + g.tally.failedCount;
      && (g.status == Some(CREATED) ==> Target(g, c, now) == Some(
            if timedOut then FAILED else if g.registeredJobs >= g.totalJobs > 0 then DISPATCHED else CREATED))
      && (g.status == Some(DISPATCHED) ==> Target(g, c, now) == Some(
            if timedOut then FAILED else if g.firstJobStartedAt > 0 then RUNNING else DISPATCHED))
      && (g.status == Some(RUNNING) ==> Target(g, c, now) == Some(
            if timedOut then FAILED
            else if recorded >= g.totalJobs > 0 && idle && idleToo then COMPLETED else RUNNING))
      && (g.status == Some(AGGREGATING) ==> Target(g, c, now) == Some(
            if timedOut then if idle then FAILED else AGGREGATING
            else if (g.aggregationStartAt == 0 || g.aggregationStartAt + c.staleGroupThresholdMs < now) && idle
            then COMPLETED else AGGREGATING))
  {
  }

  /** What one look may leave: the target status, a report of the whole list exactly when the group was
      completed, everything the jobs wrote untouched, and no lock that was not there before. */
  predicate Checked(was: Group, after: Group, c: Config, now: nat) {
    && after.SameInputs(was) && after.status == Target(was, c, now)
    && (if after.Is(COMPLETED) && !was.Ended() then after.Reported() else after.report == was.report)
    && (after.aggregationLock == was.aggregationLock
        || (Absent(was.aggregationLock, now) && after.aggregationLock.None?))
    && (after.transitionLock == was.transitionLock || (Absent(was.transitionLock, now) && after.transitionLock.None?))
    && (after.Is(AGGREGATING) ==> after.aggregationStartAt == was.aggregationStartAt)
  }

  /** A transition of the watcher's own, as against one made by a finalizer. */
  predicate Own(was: Group, after: Group) {
    after.status != was.status && !after.Is(COMPLETED)
  }

  class WatcherService {
    const config: Config
    var groups: map<GroupId, Group>
    var watched: set<GroupId>
    var cycleCount: nat
    var groupsChecked: nat
    var transitionsTriggered: nat

    constructor (config: Config, groups: map<GroupId, Group>, watched: set<GroupId>)
      ensures this.config == config && this.groups == groups && this.watched == watched
      ensures cycleCount == 0 && groupsChecked == 0 && transitionsTriggered == 0
    {
      this.config, this.groups, this.watched := config, groups, watched;
      cycleCount, groupsChecked, transitionsTriggered := 0, 0, 0;
    }

    /** The transition-status script. */
    method Swap(g: GroupId, from: Status, to: Status, now: nat) returns (done: bool)
      requires g in groups
      modifies this`groups
      ensures done == old(groups)[g].Is(from)
      ensures groups == if !done then old(groups) else old(groups)[g := old(groups)[g].(
        status := Some(to),
        aggregationStartAt := if to == AGGREGATING then now else old(groups)[g].aggregationStartAt)]
    {
      done := groups[g].Is(from);
      if done {
        groups := groups[g := groups[g].(status := Some(to))];
        if to == AGGREGATING {
          groups := groups[g := groups[g].(aggregationStartAt := now)];
        }
      }
    }

    method StoreReport(g: GroupId)
      requires g in groups
      modifies this`groups
      ensures g in groups && groups == old(groups)[g := groups[g]]
      ensures groups[g] == old(groups)[g].(report := groups[g].report) && groups[g].Reported()
    {
      var r := Aggregate(groups[g].tally, groups[g].totalJobs);
      groups := groups[g := groups[g].(report := Some(r))];
    }

    /** Inside the aggregation lock. */
    method FinalizeLocked(g: GroupId, now: nat) returns (done: bool)
      requires g in groups
      modifies this`groups
      ensures g in groups && groups == old(groups)[g := groups[g]]
      ensures done == (old(groups)[g].Is(RUNNING) || old(groups)[g].Is(AGGREGATING))
      ensures !done ==> groups == old(groups)
      ensures done ==>
        && groups[g] == old(groups)[g].(status := Some(COMPLETED), report := groups[g].report,
          aggregationStartAt := groups[g].aggregationStartAt)
        && groups[g].Reported()
        && groups[g].aggregationStartAt == if old(groups)[g].Is(RUNNING) then now else old(groups)[g].aggregationStartAt
    {
      var status := groups[g].status;
      if status == Some(AGGREGATING) {
        StoreReport(g);
        done := Swap(g, AGGREGATING, COMPLETED, now);
        return;
      }
      if status == Some(RUNNING) {
        done := Swap(g, RUNNING, AGGREGATING, now);
        if !done {
          return false;
        }
        StoreReport(g);
        done := Swap(g, AGGREGATING, COMPLETED, now);
        return;
      }
      return false;
    }

    method FinalizeGroup(g: GroupId, now: nat) returns (done: bool)
      requires g in groups
      modifies this`groups
      ensures g in groups && groups == old(groups)[g := groups[g]]
      ensures Finalized(old(groups)[g], groups[g], now)
      ensures done == (Absent(old(groups)[g].aggregationLock, now)
        && (old(groups)[g].Is(RUNNING) || old(groups)[g].Is(AGGREGATING)))
    {
      if !Absent(groups[g].aggregationLock, now) {
        return false;
      }
      groups := groups[g := groups[g].(aggregationLock := Some(Lease(0, now + config.lockTtlMs)))];
      done := FinalizeLocked(g, now);
      groups := groups[g := groups[g].(aggregationLock := None)];
    }

    /** RUNNING with all results recorded: finalize under the transition lock. */
    method CheckRunning(g: GroupId, now: nat)
      requires g in groups && groups[g].Is(RUNNING) && !groups[g].TimedOut(now)
      modifies this`groups
      ensures g in groups && groups == old(groups)[g := groups[g]]
      ensures Checked(old(groups)[g], groups[g], config, now)
    {
      if groups[g].AllRecorded() {
        if Absent(groups[g].transitionLock, now) {
          groups := groups[g := groups[g].(transitionLock := Some(Lease(0, now + config.lockTtlMs)))];
          if groups[g].Is(RUNNING) {
            var _ := FinalizeGroup(g, now);
          }
          groups := groups[g := groups[g].(transitionLock := None)];
        }
      }
    }

    method CheckAggregating(g: GroupId, now: nat)
      requires g in groups && groups[g].Is(AGGREGATING) && !groups[g].TimedOut(now)
      modifies this`groups
      ensures g in groups && groups == old(groups)[g := groups[g]]
      ensures Checked(old(groups)[g], groups[g], config, now)
    {
      var startAt := groups[g].aggregationStartAt;
      if startAt == 0 {
        var _ := FinalizeGroup(g, now);
      } else if now - startAt > config.staleGroupThresholdMs {
        var _ := FinalizeGroup(g, now);
      }
    }

    method Transition(g: GroupId, from: Status, to: Status, now: nat)
      requires g in groups && groups[g].Is(from) && to != AGGREGATING
      modifies this`groups, this`transitionsTriggered
      ensures groups == if IsValidTransition(from, to) then old(groups)[g := old(groups)[g].(status := Some(to))]
        else old(groups)
      ensures transitionsTriggered == old(transitionsTriggered) + if IsValidTransition(from, to) then 1 else 0
    {
      if !IsValidTransition(from, to) {
        return;
      }
      var done := Swap(g, from, to, now);
      if done {
        transitionsTriggered := transitionsTriggered + 1;
      }
    }

    /** A timed-out group is failed; leaving AGGREGATING takes the aggregation lock. */
    method ForceFail(g: GroupId, now: nat)
      requires g in groups && groups[g].status.Some? && !groups[g].Ended() && groups[g].TimedOut(now)
      modifies this`groups, this`transitionsTriggered
      ensures g in groups && groups == old(groups)[g := groups[g]]
      ensures Checked(old(groups)[g], groups[g], config, now)
      ensures transitionsTriggered == old(transitionsTriggered) + if groups[g].Is(FAILED) then 1 else 0
    {
      var status := groups[g].status.value;
      TableMeans(status, FAILED);
      LockMeans(status, FAILED);
      if !RequiresLock(status, FAILED) {
        Transition(g, status, FAILED, now);
        return;
      }
      if Absent(groups[g].aggregationLock, now) {
        groups := groups[g := groups[g].(aggregationLock := Some(Lease(0, now + config.lockTtlMs)))];
        Transition(g, status, FAILED, now);
        groups := groups[g := groups[g].(aggregationLock := None)];
      }
    }

    method CheckGroup(g: GroupId, now: nat)
      modifies this`groups, this`watched, this`transitionsTriggered
      ensures groups.Keys == old(groups).Keys
      ensures forall h :: h in old(groups) && h != g ==> groups[h] == old(groups)[h]
      ensures g in old(groups) ==> Checked(old(groups)[g], groups[g], config, now)
      ensures watched == if g in old(groups) && old(groups)[g].Ended() then old(watched) - {g} else old(watched)
      ensures transitionsTriggered
        == old(transitionsTriggered) + if g in old(groups) && Own(old(groups)[g], groups[g]) then 1 else 0
    {
      if g !in groups || groups[g].status.None? {
        return;
      }
      if groups[g].Ended() {
        watched := watched - {g};
        return;
      }
      if groups[g].TimedOut(now) {
        ForceFail(g, now);
        return;
      }
      TableMeans(CREATED, DISPATCHED);
      TableMeans(DISPATCHED, RUNNING);
      match groups[g].status.value
      case CREATED =>
        if groups[g].registeredJobs >= groups[g].totalJobs > 0 {
          Transition(g, CREATED, DISPATCHED, now);
        }
      case DISPATCHED =>
        if groups[g].firstJobStartedAt > 0 {
          Transition(g, DISPATCHED, RUNNING, now);
        }
      case RUNNING => CheckRunning(g, now);
      case AGGREGATING => CheckAggregating(g, now);
    }

    /** One cycle: every group watched at its start is looked at once, whatever the order, and those found
        terminal are dropped. */
    method WatchCycle(now: nat)
      modifies this
      ensures groups.Keys == old(groups).Keys
      ensures forall g :: g in old(groups) && g in old(watched) ==> Checked(old(groups)[g], groups[g], config, now)
      ensures forall g :: g in old(groups) && g !in old(watched) ==> groups[g] == old(groups)[g]
      ensures watched == set g | g in old(watched) && !(g in old(groups) && old(groups)[g].Ended())
      ensures cycleCount == old(cycleCount) + 1 && groupsChecked == old(groupsChecked) + |old(watched)|
      ensures old(transitionsTriggered) <= transitionsTriggered <= old(transitionsTriggered) + |old(watched)|
    {
      cycleCount := cycleCount + 1;
      var todo := watched;
      while todo != {}
        invariant todo <= old(watched) && groups.Keys == old(groups).Keys && cycleCount == old(cycleCount) + 1
        invariant forall g :: g in old(groups) && (g in todo || g !in old(watched)) ==> groups[g] == old(groups)[g]
        invariant forall g :: g in old(groups) && g in old(watched) && g !in todo ==>
          Checked(old(groups)[g], groups[g], config, now)
        invariant watched == set g | g in old(watched) && (g in todo || !(g in old(groups) && old(groups)[g].Ended()))
        invariant groupsChecked + |todo| == old(groupsChecked) + |old(watched)|
        invariant old(transitionsTriggered) <= transitionsTriggered
          <= old(transitionsTriggered) + |old(watched)| - |todo|
        decreases todo
      {
        var g :| g in todo;
        CheckGroup(g, now);
        todo := todo - {g};
        groupsChecked := groupsChecked + 1;
      }
    }
  }

  // ---- Cycle after cycle ----

  /** gs[i] is a watched group before the cycle at clock[i]; jobs write nothing between the cycles. */
  ghost predicate Cycles(gs: seq<Group>, clock: seq<nat>, c: Config) {
    && |gs| == |clock| + 1
    && (forall i :: 0 <= i < |clock| ==> Checked(gs[i], gs[i + 1], c, clock[i]))
    && (forall i, k :: 0 <= i < k < |clock| ==> clock[i] <= clock[k])
  }

  /** Every job is registered and recorded, and nothing is in the watcher's way. */
  predicate Rescuable(g: Group, now: nat) {
    g.registeredJobs >= g.totalJobs && g.AllRecorded() && g.firstJobStartedAt > 0 && g.LocksFree(now)
  }

  /** The cycles a group may still need. */
  function Needs(s: Status): nat {
    match s
    case CREATED => 3
    case DISPATCHED => 2
    case RUNNING => 1
    case AGGREGATING => 1
    case COMPLETED => 0
    case FAILED => 0
  }

  lemma OneCycle(g: Group, g': Group, c: Config, now: nat, next: nat, last: nat)
    requires Checked(g, g', c, now) && Rescuable(g, now) && !g.TimedOut(now) && now <= next <= last
    requires g.status.Some? && !g.Ended() && (g.Is(AGGREGATING) ==> g.Restartable(last, c.staleGroupThresholdMs))
    ensures Rescuable(g', next) && g'.status.Some? && !g'.Is(FAILED)
    ensures g'.Is(COMPLETED) ==> g'.Reported()
    ensures g'.Is(AGGREGATING) ==> g.Is(AGGREGATING) && g'.Restartable(last, c.staleGroupThresholdMs) && now < last
    ensures !g'.Is(COMPLETED) && !g'.Is(AGGREGATING) ==> Needs(g'.status.value) < Needs(g.status.value)
  {
  }

  lemma {:induction false} StaysCompleted(gs: seq<Group>, clock: seq<nat>, c: Config)
    requires Cycles(gs, clock, c) && gs[0].Is(COMPLETED) && gs[0].Reported()
    ensures gs[|clock|].Is(COMPLETED) && gs[|clock|].Reported() && gs[|clock|].SameInputs(gs[0])
  {
    if clock != [] {
      assert Checked(gs[0], gs[1], c, clock[0]);
      StaysCompleted(gs[1..], clock[1..], c);
    }
  }

  /** The watcher needs no help: whatever state a group without timeout was left in, three cycles complete it
      and store the report of its whole list; one left in AGGREGATING is completed by the first cycle that finds
      its aggregation unstarted or stale. */
  lemma {:induction false} WatcherCompletes(gs: seq<Group>, clock: seq<nat>, c: Config)
    requires Cycles(gs, clock, c) && clock != []
    requires Rescuable(gs[0], clock[0]) && forall i :: 0 <= i < |clock| ==> !gs[0].TimedOut(clock[i])
    requires gs[0].status.Some? && !gs[0].Ended() && Needs(gs[0].status.value) <= |clock|
    requires gs[0].Is(AGGREGATING) ==> gs[0].Restartable(clock[|clock| - 1], c.staleGroupThresholdMs)
    ensures gs[|clock|].status == Some(COMPLETED) && gs[|clock|].Reported() && gs[|clock|].SameInputs(gs[0])
    ensures var (r, g) := (gs[|clock|].report, gs[0]);
      && r.Some? && r.value.totalJobs == g.totalJobs && r.value.failedJobIds == FailedIds(g.tally.results)
      && r.value.successCount == g.tally.successCount && r.value.failedCount == g.tally.failedCount
  {
    var last := clock[|clock| - 1];
    assert Checked(gs[0], gs[1], c, clock[0]) && clock[0] <= last;
    OneCycle(gs[0], gs[1], c, clock[0], if |clock| > 1 then clock[1] else last, last);
    if gs[1].Is(COMPLETED) {
      StaysCompleted(gs[1..], clock[1..], c);
    } else {
      WatcherCompletes(gs[1..], clock[1..], c);
    }
  }

  /** Rescue, as two calls: a watched group left in AGGREGATING with the lock free, no timeout, and its aggregation
      unstarted or stale is completed, with the report of its whole list, by one cycle, and dropped by the next. */
  method RescueInTwoCycles(w: WatcherService, g: GroupId, now: nat, later: nat)
    requires g in w.groups && g in w.watched
    requires w.groups[g].Is(AGGREGATING) && Absent(w.groups[g].aggregationLock, now) && !w.groups[g].TimedOut(now)
    requires w.groups[g].Restartable(now, w.config.staleGroupThresholdMs)
    modifies w
    ensures g in w.groups && w.groups[g].status == Some(COMPLETED) && w.groups[g].Reported() && g !in w.watched
    ensures var (r, t) := (w.groups[g].report, old(w.groups)[g].tally);
      && r.Some? && r.value.totalJobs == old(w.groups)[g].totalJobs && r.value.failedJobIds == FailedIds(t.results)
      && r.value.successCount == t.successCount && r.value.failedCount == t.failedCount
  {
    w.WatchCycle(now);
    assert w.groups[g].Is(COMPLETED) && w.groups[g].Reported();
    w.WatchCycle(later);
  }
}
