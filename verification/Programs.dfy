/** The services' programs, command by command. Every await is a point where any other actor may have acted;
    each program is shown to be a path of the pipeline's state machine, whatever the others do meanwhile. */
module Programs {
  import opened Base
  import opened FairQueue
  import opened ReliableQueue
  import opened Results
  import opened SortedSet
  import opened Pipeline
  import Backoff
  import RateLimiter
  import PipelineResults

  /** The actions of one actor in a log, in order. */
  function Mine(me: ActorId, log: seq<Event>): seq<Action> {
    if log == [] then []
    else
      var last := log[|log| - 1];
      Mine(me, log[..|log| - 1]) + if last.By? && last.a == me then [last.x] else []
  }

  lemma MineAppended(me: ActorId, log: seq<Event>, e: Event)
    ensures Mine(me, log + [e]) == Mine(me, log) + if e.By? && e.a == me then [e.x] else []
  {
  }

  lemma {:induction false} RunExtended(c: Config, s: State, log: seq<Event>, s': State, e: Event)
    requires Run(c, s, log, s') && Enabled(c, s', e)
    ensures Run(c, s, log + [e], Next(c, s', e))
    decreases |log|
  {
    if log == [] {
      assert log + [e] == [e];
      assert Run(c, Next(c, s', e), [], Next(c, s', e));
    } else {
      RunExtended(c, Next(c, s, log[0]), log[1..], s', e);
      assert (log + [e])[1..] == log[1..] + [e];
    }
  }

  /** The group a worker's or recoverer's result and acknowledgement go to. */
  function AckGroup(groups: map<JobId, GroupId>, k: Ctl): GroupId
    requires k.Completing? || k.Recorded? || k.Burying? || k.Buried? || (k.Reporting? && k.pairs != [])
  {
    if k.Reporting? then k.pairs[0].1 else GroupIn(groups, k.job)
  }

  lemma RecordIs(c: Config, s: Store, k: Ctl)
    requires Guard(c, s, k, Record)
    ensures Effect(c, s, k, Record) == s.AddResult(AckGroup(s.q.groups, k), PipelineResults.RecordedOutcome(k))
  {
  }

  lemma AckIs(c: Config, s: Store, k: Ctl, t: Store)
    requires Guard(c, s, k, Acknowledge)
    requires t == s.(fair := s.fair.Ack(AckGroup(s.q.groups, k)),
      finished := if k.Recorded? then s.finished + {k.job} else s.finished)
    ensures t == Effect(c, s, k, Acknowledge)
  {
  }

  lemma RecoverIs(c: Config, s: Store, js: seq<JobId>, pairs: seq<(JobId, GroupId)>, t: Store)
    requires DueBatch(s.q.deadlines, s.now, c.orphanBatchSize, js) && pairs == s.q.Report(js, s.now, c.orphanMaxRetry)
    requires t == s.(q := s.q.Recover(js, s.now, c.orphanMaxRetry),
      recovered := s.recovered + |Survivors(s.q, js, c.orphanMaxRetry)|)
    ensures Guard(c, s, Idle, Recover(js)) && t == Effect(c, s, Idle, Recover(js))
    ensures Control(c, s, Idle, Recover(js)) == if pairs == [] then Idle else Reporting(pairs, false)
  {
  }

  /** Always true; a proof mentions it to look inside RunsTo. */
  ghost predicate Open(n: nat) {
    true
  }

  /** The log is a run of the machine from the origin to w; it holds my actions, and left me where I am. */
  ghost predicate RunsTo(c: Config, origin: State, log: seq<Event>, w: State, me: ActorId, here: Ctl,
                         mine: seq<Action>) {
    forall n: nat {:trigger Open(n)} :: Open(n) ==> Run(c, origin, log, w) && w.At(me) == here && Mine(me, log) == mine
  }

  lemma ActionAppended(c: Config, origin: State, log: seq<Event>, s: State, me: ActorId, here: Ctl, mine: seq<Action>,
                       x: Action, t: Store, next: Ctl)
    requires RunsTo(c, origin, log, s, me, here, mine)
    requires Guard(c, s.store, here, x) && t == Effect(c, s.store, here, x) && next == Control(c, s.store, here, x)
    ensures RunsTo(c, origin, log + [By(me, x)], State(t, s.actors[me := next]), me, next, mine + [x])
  {
    assert Open(0);
    RunExtended(c, origin, log, s, By(me, x));
    MineAppended(me, log, By(me, x));
  }

  lemma DispatchIs(c: Config, s: Store, js: seq<JobId>)
    requires DueBatch(s.nonReady, s.now, c.dispatchBatchSize, js)
    ensures Guard(c, s, Dispatching, Dispatch(js))
    ensures Effect(c, s, Dispatching, Dispatch(js)) == s.Move(js) && Control(c, s, Dispatching, Dispatch(js)) == Idle
  {
  }

  lemma PopIs(c: Config, s: Store, m: Meta)
    requires s.q.ready != []
    ensures Guard(c, s, Armed(m), Pop)
    ensures Effect(c, s, Armed(m), Pop) == s.(q := s.q.Pop(s.now, c.ackTimeoutMs, m),
      runs := s.runs[s.q.ready[0] := CountAt(s.runs, s.q.ready[0]) + 1])
    ensures Control(c, s, Armed(m), Pop) == Popped(s.q.ready[0], s.now)
  {
  }

  lemma PopNothing(c: Config, s: Store, m: Meta)
    requires s.q.ready == []
    ensures Guard(c, s, Armed(m), Pop)
    ensures Effect(c, s, Armed(m), Pop) == s && Control(c, s, Armed(m), Pop) == Idle
  {
  }

  lemma DelayIs(c: Config, s: Store, k: Ctl, activeGroups: nat)
    requires k.Throttled? || k.Requeueing?
    ensures Guard(c, s, k, Delay(activeGroups)) && Control(c, s, k, Delay(activeGroups)) == Idle
    ensures var after := Backoff.Congestion(s.nonReady, s.congestion).Add(k.job, s.q.GroupOf(k.job), s.now,
        Backoff.Speed(c.globalRps, activeGroups), c.baseBackoffMs, c.maxBackoffMs);
      Effect(c, s, k, Delay(activeGroups)) == s.(nonReady := after.nonReady, congestion := after.counts)
  {
  }

  lemma MoveStep(s: Store, js: seq<JobId>, i: nat)
    requires i < |js|
    ensures s.Move(js[..i + 1]) == s.Move(js[..i]).MoveOne(js[i])
  {
    assert js[..i + 1][..i] == js[..i];
  }

  datatype Destination = READY | NON_READY | REJECTED

  /** The commands of one admission, by where it ends. */
  predicate AdmitPath(path: seq<Action>, d: Destination) {
    match d
    case READY => path == [CheckRoom, CheckRate(true), Push]
    case NON_READY =>
      |path| == 3 && path[0] == CheckRoom && path[1] == CheckRate(false) && (path[2].Delay? || path[2] == DelayFixed)
    case REJECTED => path == [CheckRoom] || path == [CheckRoom, CheckRate(true), Push]
  }

  /** The commands after a processor call. */
  predicate SettledPath(path: seq<Action>, verdict: Verdict) {
    if verdict.Retryable? then
      || (|path| == 2 && path[0] == CountRetry && (path[1].Delay? || path[1] == DelayFixed))
      || path == [Bury, Record, Acknowledge]
    else path == [Record, Acknowledge] || path == [Record, Acknowledge, ResetStats]
  }

  function Beats(n: nat): seq<Action> {
    seq(n, _ => Heartbeat)
  }

  /** The time n intervals take. */
  function Elapsed(n: nat, interval: nat): nat {
    if n == 0 then 0 else Elapsed(n - 1, interval) + interval
  }

  lemma ElapsedIs(n: nat, interval: nat)
    ensures Elapsed(n, interval) == n * interval
  {
  }

  /** The commands of one execution, up to taking the job off the in-flight set. */
  function Executed(verdict: Verdict, durationMs: nat, beats: nat): seq<Action> {
    [CheckReady, Peek, ReadMeta, Pop, Load] + Beats(beats) + [Settle(verdict, durationMs)]
  }

  /** The commands of one worker tick: nothing to do, a lost race, a job without data, or an execution. */
  predicate TickPath(path: seq<Action>, verdict: Verdict, durationMs: nat, beats: nat) {
    || path == [CheckReady] || path == [CheckReady, Peek, ReadMeta, Pop]
    || path == [CheckReady, Peek, ReadMeta, Pop, Discard]
    || (|path| >= 6 + beats
        && path[..6 + beats] == Executed(verdict, durationMs, beats)
        && SettledPath(path[6 + beats..], verdict))
  }

  /** Record, then acknowledge, n times. */
  function Reports(n: nat): seq<Action> {
    if n == 0 then [] else Reports(n - 1) + [Record, Acknowledge]
  }

  /** What the services count of their own doings, and the dispatcher's guard against overlapping itself. */
  class Stats {
    var totalFetched: nat
    var totalAdmittedReady: nat
    var totalAdmittedNonReady: nat
    var totalRejected: nat
    var totalEmptyPolls: nat
    var dispatching: bool
    var totalMoved: nat
    var totalCycles: nat
    var totalSkipped: nat
    var totalRecovered: nat
    var totalDeadLettered: nat

    /** Counts a job taken from the fair queue, once in all and once under where it went. */
    method Fetched(destination: Destination)
      modifies this`totalFetched, this`totalAdmittedReady, this`totalAdmittedNonReady, this`totalRejected
      ensures totalFetched == old(totalFetched) + 1
      ensures totalAdmittedReady == old(totalAdmittedReady) + if destination.READY? then 1 else 0
      ensures totalAdmittedNonReady == old(totalAdmittedNonReady) + if destination.NON_READY? then 1 else 0
      ensures totalRejected == old(totalRejected) + if destination.REJECTED? then 1 else 0
    {
      totalFetched := totalFetched + 1;
      if destination.READY? {
        totalAdmittedReady := totalAdmittedReady + 1;
      } else if destination.NON_READY? {
        totalAdmittedNonReady := totalAdmittedNonReady + 1;
      } else {
        totalRejected := totalRejected + 1;
      }
    }
  }

  /** One actor of one instance, and the shared store it sends its commands to. */
  class Node {
    const c: Config
    const me: ActorId
    const fairQueue: FairQueueService
    const reliableQueue: ReliableQueueService
    const congestion: Backoff.CongestionControlService
    const limiter: RateLimiter.RateLimiterService
    const stats: Stats
    var now: nat
    var tallies: map<GroupId, Tally>

    // the machine's view: records the store does not keep, and the run so far
    ghost var finished: set<JobId>
    ghost var rejected: set<JobId>
    ghost var lost: set<JobId>
    ghost var runs: map<JobId, nat>
    ghost var recovered: nat
    ghost var actors: map<ActorId, Ctl>
    ghost var origin: State
    ghost var log: seq<Event>
    ghost var here: Ctl
    ghost var mine: seq<Action>

    ghost function Keys(): Store
      reads this`now, this`tallies, this`finished, this`rejected, this`lost, this`runs, this`recovered
      reads fairQueue, reliableQueue, congestion
    {
      Store(fairQueue.View(), now, reliableQueue.View(), congestion.nonReady, congestion.counts, tallies,
            finished, rejected, lost, runs, recovered)
    }

    ghost function World(): State
      reads this, fairQueue, reliableQueue, congestion
    {
      State(Keys(), actors)
    }

    ghost predicate Configured() {
      && fairQueue.alpha == c.alpha && limiter.windowMs > 0
      && reliableQueue.ackTimeoutMs == c.ackTimeoutMs && reliableQueue.maxRetryCount == c.orphanMaxRetry
      && congestion.globalRps == c.globalRps
      && congestion.baseMs == c.baseBackoffMs && congestion.maxMs == c.maxBackoffMs
    }

    ghost predicate Valid()
      reads this, fairQueue, reliableQueue, congestion
    {
      Configured() && RunsTo(c, origin, log, World(), me, here, mine)
    }

    constructor (c: Config, me: ActorId, fairQueue: FairQueueService, reliableQueue: ReliableQueueService,
                 congestion: Backoff.CongestionControlService, limiter: RateLimiter.RateLimiterService)
      requires fairQueue.View() == FairQueue.EMPTY && fairQueue.alpha == c.alpha && limiter.windowMs > 0
      requires reliableQueue.View() == Start(0).store.q
      requires reliableQueue.ackTimeoutMs == c.ackTimeoutMs && reliableQueue.maxRetryCount == c.orphanMaxRetry
      requires congestion.View() == Backoff.Congestion(map[], map[])
      requires congestion.globalRps == c.globalRps && congestion.baseMs == c.baseBackoffMs
      requires congestion.maxMs == c.maxBackoffMs
      ensures Valid() && origin == World() == Start(0) && log == [] && mine == [] && here == Idle && this.me == me
      ensures this.c == c
    {
      this.c, this.me, this.fairQueue, this.reliableQueue := c, me, fairQueue, reliableQueue;
      this.congestion, this.limiter := congestion, limiter;
      now, tallies := 0, map[];
      stats := new Stats;
      finished, rejected, lost, runs, recovered := {}, {}, {}, map[], 0;
      actors, log, origin, here, mine := map[], [], Start(0), Idle, [];
    }

    /** Other actors and the clock move on; this one stays where it is. The body does nothing, but callers know
        only what the contract says. */
    method Await()
      requires Valid()
      modifies this, fairQueue, reliableQueue, congestion, limiter
      ensures Valid() && here == old(here) && mine == old(mine) && origin == old(origin) && old(now) <= now
    {
    }

    /** Bookkeeping for an action whose effect the keys already show. */
    ghost method Did(before: State, x: Action)
      requires Configured() && RunsTo(c, origin, log, before, me, here, mine) && before.actors == actors
      requires Guard(c, before.store, here, x) && Keys() == Effect(c, before.store, here, x)
      modifies this`log, this`actors, this`here, this`mine
      ensures Valid() && Keys() == old(Keys()) && here == Control(c, before.store, old(here), x)
      ensures log == old(log) + [By(me, x)] && mine == old(mine) + [x]
    {
      ghost var next := Control(c, before.store, here, x);
      ActionAppended(c, origin, log, before, me, here, mine, x, Keys(), next);
      log, mine, here, actors := log + [By(me, x)], mine + [x], next, actors[me := next];
    }

    // ---- Commands: each waits its turn, then takes one action ----

    method DequeueFair() returns (job: Option<JobId>)
      requires Valid() && here.Idle?
      modifies this, fairQueue, reliableQueue, congestion, limiter
      ensures Valid() && origin == old(origin)
      ensures job.Some? ==>
        here == Fetched(job.value) && |mine| == |old(mine)| + 1 && mine[|old(mine)|].Fetch? && old(mine) <= mine
      ensures job.None? ==> here.Idle? && mine == old(mine) + [Poll]
    {
      Await();
      ghost var before := World();
      ghost var level;
      var found;
      found, level := fairQueue.Dequeue(now);
      if found.Some? {
        Did(before, Fetch(level, found.value.0));
        job := Some(found.value.1);
      } else {
        Did(before, Poll);
        job := None;
      }
    }

    method HasCapacity(j: JobId) returns (room: bool)
      requires Valid() && here == Fetched(j)
      modifies this, fairQueue, reliableQueue, congestion, limiter
      ensures Valid() && origin == old(origin) && mine == old(mine) + [CheckRoom]
      ensures here == if room then Roomy(j) else Idle
      ensures room == (|reliableQueue.ready| < c.readyQueueMaxSize) && (!room ==> j in rejected)
    {
      Await();
      ghost var before := World();
      room := |reliableQueue.ready| < c.readyQueueMaxSize;
      if !room {
        rejected := rejected + {j};
      }
      Did(before, CheckRoom);
    }

    method CheckRateLimit(j: JobId) returns (allowed: bool)
      requires Valid() && here == Roomy(j)
      modifies this, fairQueue, reliableQueue, congestion, limiter
      ensures Valid() && origin == old(origin) && mine == old(mine) + [CheckRate(allowed)]
      ensures here == if allowed then Allowed(j) else Throttled(j)
      ensures Answered(GroupIn(reliableQueue.groups, j), allowed)
    {
      Await();
      allowed := AskLimiter(GroupIn(reliableQueue.groups, j));
      Did(World(), CheckRate(allowed));
    }

    /** What the limiter's counters show of its last answer. */
    predicate Answered(g: GroupId, allowed: bool)
      reads this`now, limiter
      requires limiter.windowMs > 0
    {
      var l, w := limiter.View(), RateLimiter.WindowOf(now, limiter.windowMs);
      if allowed then
        && l.Count(RateLimiter.GLOBAL, w) <= limiter.globalRps
        && 0 < l.Count(g, w) <= RateLimiter.Share(limiter.globalRps, |l.active|)
      else !l.Admits(g, w, limiter.globalRps)
    }

    method AskLimiter(g: GroupId) returns (allowed: bool)
      requires limiter.windowMs > 0
      modifies limiter
      ensures Answered(g, allowed)
    {
      ghost var l, w := limiter.View(), RateLimiter.WindowOf(now, limiter.windowMs);
      RateLimiter.AnswerShows(l, g, w, limiter.globalRps);
      var globalCount, groupCount, perGroupLimit;
      allowed, globalCount, groupCount, perGroupLimit := limiter.CheckRateLimit(g, now);
    }

    /** The ready-queue-push script. */
    method PushReady(j: JobId) returns (pushed: bool)
      requires Valid() && here == Allowed(j)
      modifies this, fairQueue, reliableQueue, congestion, limiter
      ensures Valid() && origin == old(origin) && mine == old(mine) + [Push] && here.Idle?
      ensures if pushed then reliableQueue.ready != [] && reliableQueue.ready[|reliableQueue.ready| - 1] == j
        else j in rejected && |reliableQueue.ready| >= c.readyQueueMaxSize
    {
      Await();
      ghost var before := World();
      pushed := |reliableQueue.ready| < c.readyQueueMaxSize;
      if pushed {
        reliableQueue.ready := reliableQueue.ready + [j];
      } else {
        rejected := rejected + {j};
      }
      Did(before, Push);
    }

    /** Delays a throttled or failed job: dynamically, or by the fixed delay when congestion control is off. */
    method AddToNonReady(j: JobId) returns (response: Backoff.BackoffResponse, ghost x: Action)
      requires Valid() && (here == Throttled(j) || here == Requeueing(j))
      modifies this, fairQueue, reliableQueue, congestion, limiter
      ensures Valid() && origin == old(origin) && mine == old(mine) + [x] && (x.Delay? || x == DelayFixed) && here.Idle?
      ensures j in congestion.nonReady && congestion.nonReady[j] == now + response.backoffMs
    {
      Await();
      ghost var before := World();
      var activeGroups := |limiter.active|;
      DelayIs(c, before.store, here, activeGroups);
      response := congestion.AddToNonReady(j, GroupIn(reliableQueue.groups, j), now, activeGroups);
      x := if congestion.enabled then Delay(activeGroups) else DelayFixed;
      Did(before, x);
    }

    method ReadyRoom() returns (room: bool)
      requires Valid() && here.Idle?
      modifies this, fairQueue, reliableQueue, congestion, limiter
      ensures Valid() && origin == old(origin) && mine == old(mine) + [DispatchCheck]
      ensures here == (if room then Dispatching else Idle) && room == (|reliableQueue.ready| < c.readyQueueMaxSize)
    {
      Await();
      ghost var before := World();
      room := |reliableQueue.ready| < c.readyQueueMaxSize;
      Did(before, DispatchCheck);
    }

    /** The move-to-ready script, for one member of the batch. */
    method MoveOne(j: JobId)
      modifies reliableQueue`ready, congestion
      ensures Keys() == old(Keys()).MoveOne(j)
      ensures reliableQueue.ready == old(reliableQueue.ready) + [j]
      ensures congestion.nonReady == old(congestion.nonReady) - {j}
      ensures j in reliableQueue.groups ==>
        var g := reliableQueue.groups[j];
        congestion.counts == old(congestion.counts)[g := Max(0, CountAt(old(congestion.counts), g) - 1)]
      ensures j !in reliableQueue.groups ==> congestion.counts == old(congestion.counts)
    {
      congestion.nonReady := congestion.nonReady - {j};
      reliableQueue.ready := reliableQueue.ready + [j];
      if j in reliableQueue.groups {
        var g := reliableQueue.groups[j];
        var newCount: int := CountAt(congestion.counts, g) - 1;
        if newCount < 0 {
          newCount := 0;
        }
        congestion.counts := congestion.counts[g := newCount];
      }
    }

    method MoveAll(js: seq<JobId>)
      modifies reliableQueue`ready, congestion
      ensures Keys() == old(Keys()).Move(js)
      ensures reliableQueue.ready == old(reliableQueue.ready) + js
      ensures forall k :: k in congestion.nonReady <==> k in old(congestion.nonReady) && k !in js
    {
      for i := 0 to |js|
        invariant Keys() == old(Keys()).Move(js[..i])
        invariant reliableQueue.ready == old(reliableQueue.ready) + js[..i]
        invariant forall k :: k in congestion.nonReady <==> k in old(congestion.nonReady) && k !in js[..i]
      {
        MoveStep(old(Keys()), js, i);
        MoveOne(js[i]);
      }
      assert js[..|js|] == js;
    }

    /** The move-to-ready script: the jobs that fell due first, in this order, to the end of the ready list. */
    method MoveBatch() returns (js: seq<JobId>)
      modifies reliableQueue`ready, congestion
      ensures DueBatch(old(congestion.nonReady), now, c.dispatchBatchSize, js) && Keys() == old(Keys()).Move(js)
      ensures forall i :: 0 <= i < |js| ==> js[i] in old(congestion.nonReady) && old(congestion.nonReady)[js[i]] <= now
      ensures forall i, k :: 0 <= i < k < |js| ==> old(congestion.nonReady)[js[i]] <= old(congestion.nonReady)[js[k]]
      // no due job is passed over for one that fell due later
      ensures forall i, k ::
        0 <= i < |js| && k in old(congestion.nonReady) && k !in js && old(congestion.nonReady)[k] <= now ==>
          old(congestion.nonReady)[js[i]] <= old(congestion.nonReady)[k]
      ensures |js| <= c.dispatchBatchSize
      ensures |js| < c.dispatchBatchSize ==>
        forall k :: k in old(congestion.nonReady) && old(congestion.nonReady)[k] <= now ==> k in js
      ensures reliableQueue.ready == old(reliableQueue.ready) + js
      ensures forall k :: k in congestion.nonReady <==> k in old(congestion.nonReady) && k !in js
    {
      js := RangeByScore(congestion.nonReady, now, c.dispatchBatchSize);
      MoveAll(js);
    }

    method MoveToReady() returns (moved: nat, ghost js: seq<JobId>)
      requires Valid() && here.Dispatching?
      modifies this, fairQueue, reliableQueue, congestion, limiter
      ensures Valid() && origin == old(origin) && mine == old(mine) + [Dispatch(js)] && here.Idle? && moved == |js|
    {
      Await();
      ghost var before := World();
      var jobs := MoveBatch();
      js := jobs;
      DispatchIs(c, before.store, jobs);
      Did(before, Dispatch(jobs));
      moved := |jobs|;
    }

    method AnyReady() returns (some: bool)
      requires Valid() && here.Idle?
      modifies this, fairQueue, reliableQueue, congestion, limiter
      ensures Valid() && origin == old(origin) && mine == old(mine) + [CheckReady]
      ensures here == if some then Looking else Idle
    {
      Await();
      ghost var before := World();
      some := |reliableQueue.ready| > 0;
      Did(before, CheckReady);
    }

    method PeekReady() returns (front: Option<JobId>)
      requires Valid() && here.Looking?
      modifies this, fairQueue, reliableQueue, congestion, limiter
      ensures Valid() && origin == old(origin) && mine == old(mine) + [Peek] && here == Peeked(front)
    {
      Await();
      ghost var before := World();
      front := if reliableQueue.ready == [] then None else Some(reliableQueue.ready[0]);
      Did(before, Peek);
    }

    method ReadJobMeta(front: Option<JobId>) returns (m: Meta)
      requires Valid() && here == Peeked(front)
      modifies this, fairQueue, reliableQueue, congestion, limiter
      ensures Valid() && origin == old(origin) && mine == old(mine) + [ReadMeta] && here == Armed(m)
    {
      Await();
      ghost var before := World();
      m := Meta(0, NO_GROUP);
      if front.Some? {
        m := Meta(CountAt(reliableQueue.retries, front.value), GroupIn(reliableQueue.groups, front.value));
      }
      Did(before, ReadMeta);
    }

    method PopNow(m: Meta) returns (job: Option<JobId>)
      requires Valid() && here == Armed(m)
      modifies this, reliableQueue
      ensures Valid() && origin == old(origin) && mine == old(mine) + [Pop]
      ensures if job.None? then here.Idle? else here == Popped(job.value, now)
    {
      ghost var before := World();
      job := reliableQueue.Pop(now, m);
      if job.Some? {
        PopIs(c, before.store, m);
        runs := runs[job.value := CountAt(runs, job.value) + 1];
      } else {
        PopNothing(c, before.store, m);
      }
      Did(before, Pop);
    }

    method PopReliable(m: Meta) returns (job: Option<JobId>)
      requires Valid() && here == Armed(m)
      modifies this, fairQueue, reliableQueue, congestion, limiter
      ensures Valid() && origin == old(origin) && mine == old(mine) + [Pop]
      ensures if job.None? then here.Idle? else here.Popped? && here.job == job.value && here.since <= now
    {
      Await();
      job := PopNow(m);
    }

    /** Reads the job hash; a job without one is taken off the in-flight set. */
    method LoadJob(j: JobId) returns (retry: Option<nat>)
      requires Valid() && here.Popped? && here.job == j && here.since <= now
      modifies this, fairQueue, reliableQueue, congestion, limiter
      ensures Valid() && origin == old(origin) && mine == old(mine) + [if retry.Some? then Load else Discard]
      ensures if retry.Some? then here.Running? && here.job == j && here.retry == retry.value && here.renewed <= now
        else here.Idle?
      ensures j in reliableQueue.groups <==> retry.Some?
      ensures retry.Some? ==> retry.value == if j in reliableQueue.retries then reliableQueue.retries[j] else 0
      ensures retry.None? ==> j !in reliableQueue.deadlines && j !in reliableQueue.meta
    {
      Await();
      ghost var before := World();
      if j in reliableQueue.groups {
        retry := Some(CountAt(reliableQueue.retries, j));
        Did(before, Load);
      } else {
        var _ := reliableQueue.Ack(j);
        retry := None;
        Did(before, Discard);
      }
    }

    /** The heartbeat timer fires; the interval has passed since the deadline was last set. */
    method ExtendDeadline(j: JobId)
      requires Valid() && here.Running? && here.job == j && here.renewed + BeatMs(c) <= now
      modifies this, reliableQueue
      ensures Valid() && origin == old(origin) && now == old(now)
      ensures mine == old(mine) + [Heartbeat] && here == old(here).(renewed := now)
    {
      ghost var before := World();
      var _ := reliableQueue.ExtendDeadline(j, now);
      Did(before, Heartbeat);
    }

    /** Takes the job off the in-flight set, whatever came of it; the answer is not looked at. */
    method ReliableAck(j: JobId, verdict: Verdict, durationMs: nat)
      requires Valid() && here.Running? && here.job == j
      modifies this, fairQueue, reliableQueue, congestion, limiter
      ensures Valid() && origin == old(origin) && mine == old(mine) + [Settle(verdict, durationMs)]
      ensures here == if verdict.Retryable? then Failing(j, old(here).retry)
        else Completing(j, verdict.Success?, durationMs)
      ensures j !in reliableQueue.deadlines && j !in reliableQueue.meta
    {
      Await();
      ghost var before := World();
      var _ := reliableQueue.Ack(j);
      Did(before, Settle(verdict, durationMs));
    }

    method Count(g: GroupId, o: Outcome)
      modifies this`tallies
      ensures tallies == old(tallies)[g := TallyOf(old(tallies), g).Record(o)]
    {
      var t := if g in tallies then tallies[g] else NO_RESULTS;
      if o.success {
        t := t.(successCount := t.successCount + 1);
      } else {
        t := t.(failedCount := t.failedCount + 1);
      }
      t := t.(results := t.results + [o]);
      tallies := tallies[g := t];
    }

    /** The record-job-result script; the group is that of the job unless the caller knows another. */
    method RecordJobResult(o: Outcome, known: Option<GroupId>)
      requires Valid() && (here.Completing? || here.Burying? || (here.Reporting? && here.pairs != [] && !here.recorded))
      requires o == PipelineResults.RecordedOutcome(here)
      requires known == if here.Reporting? then Some(here.pairs[0].1) else None
      modifies this, fairQueue, reliableQueue, congestion, limiter
      ensures Valid() && origin == old(origin) && mine == old(mine) + [Record]
      ensures var k := old(here);
        here == if k.Completing? then Recorded(k.job) else if k.Burying? then Buried(k.job)
          else Reporting(k.pairs, true)
      ensures var g := if known.Some? then known.value else GroupIn(reliableQueue.groups, o.job);
        g in tallies && tallies[g].results != [] && tallies[g].results[|tallies[g].results| - 1] == o
    {
      Await();
      RecordNow(o, if known.Some? then known.value else GroupIn(reliableQueue.groups, o.job));
    }

    method RecordNow(o: Outcome, g: GroupId)
      requires Valid() && (here.Completing? || here.Burying? || (here.Reporting? && here.pairs != [] && !here.recorded))
      requires o == PipelineResults.RecordedOutcome(here) && g == AckGroup(reliableQueue.groups, here)
      modifies this
      ensures Valid() && origin == old(origin) && mine == old(mine) + [Record]
      ensures var k := old(here);
        here == if k.Completing? then Recorded(k.job) else if k.Burying? then Buried(k.job)
          else Reporting(k.pairs, true)
      ensures var t := TallyOf(old(tallies), g); tallies == old(tallies)[g := Tally(
        if o.success then t.successCount + 1 else t.successCount,
        if o.success then t.failedCount else t.failedCount + 1,
        t.results + [o])]
    {
      ghost var before := World();
      RecordIs(c, before.store, here);
      Count(g, o);
      Did(before, Record);
    }

    method AckNow(j: JobId, known: Option<GroupId>) returns (groupCompleted: bool, g: GroupId)
      requires Valid() && (here.Recorded? || here.Buried? || (here.Reporting? && here.pairs != [] && here.recorded))
      requires if here.Reporting? then known == Some(here.pairs[0].1) else known == None && j == here.job
      modifies this, fairQueue
      ensures Valid() && origin == old(origin) && mine == old(mine) + [Acknowledge]
      ensures var k := old(here);
        here == if k.Recorded? && groupCompleted then Resetting(g)
                else if k.Reporting? && |k.pairs| > 1 then Reporting(k.pairs[1..], false) else Idle
    {
      ghost var before := World();
      if here.Recorded? {
        finished := finished + {j};
      }
      g := if known.Some? then known.value else GroupIn(reliableQueue.groups, j);
      groupCompleted := fairQueue.Ack(g);
      AckIs(c, before.store, here, Keys());
      Did(before, Acknowledge);
    }

    /** The ack script. */
    method AckFair(j: JobId, known: Option<GroupId>) returns (groupCompleted: bool, g: GroupId)
      requires Valid() && (here.Recorded? || here.Buried? || (here.Reporting? && here.pairs != [] && here.recorded))
      requires if here.Reporting? then known == Some(here.pairs[0].1) else known == None && j == here.job
      modifies this, fairQueue, reliableQueue, congestion, limiter
      ensures Valid() && origin == old(origin) && mine == old(mine) + [Acknowledge]
      ensures var k := old(here);
        here == if k.Recorded? && groupCompleted then Resetting(g)
                else if k.Reporting? && |k.pairs| > 1 then Reporting(k.pairs[1..], false) else Idle
    {
      Await();
      groupCompleted, g := AckNow(j, known);
    }

    method ResetGroupStats(g: GroupId)
      requires Valid() && here == Resetting(g)
      modifies this, fairQueue, reliableQueue, congestion, limiter
      ensures Valid() && origin == old(origin) && mine == old(mine) + [ResetStats] && here.Idle?
    {
      Await();
      ghost var before := World();
      congestion.ResetGroupStats(g);
      Did(before, ResetStats);
    }

    method IncrementRetries(j: JobId)
      requires Valid() && here.Failing? && here.job == j && here.retry < c.workerMaxRetry
      modifies this, fairQueue, reliableQueue, congestion, limiter
      ensures Valid() && origin == old(origin) && mine == old(mine) + [CountRetry] && here == Requeueing(j)
    {
      Await();
      ghost var before := World();
      reliableQueue.retries := reliableQueue.retries[j := CountAt(reliableQueue.retries, j) + 1];
      Did(before, CountRetry);
    }

    method AppendDead(j: JobId, retry: nat)
      requires Valid() && here == Failing(j, retry) && retry >= c.workerMaxRetry
      modifies this, fairQueue, reliableQueue, congestion, limiter
      ensures Valid() && origin == old(origin) && mine == old(mine) + [Bury] && here == Burying(j)
      ensures reliableQueue.dead != []
      ensures reliableQueue.dead[|reliableQueue.dead| - 1] == DeadEntry(j, GroupIn(reliableQueue.groups, j), retry, now)
    {
      Await();
      ghost var before := World();
      reliableQueue.dead := reliableQueue.dead + [DeadEntry(j, GroupIn(reliableQueue.groups, j), retry, now)];
      Did(before, Bury);
    }

    method RecoverScript()
      returns (survivors: nat, deadLettered: nat, pairs: seq<(JobId, GroupId)>, ghost js: seq<JobId>)
      requires Configured()
      modifies this`recovered, reliableQueue
      ensures DueBatch(old(Keys()).q.deadlines, now, c.orphanBatchSize, js)
      ensures Keys() == old(Keys()).(q := old(Keys()).q.Recover(js, now, c.orphanMaxRetry),
        recovered := old(recovered) + |Survivors(old(Keys()).q, js, c.orphanMaxRetry)|)
      ensures pairs == old(Keys()).q.Report(js, now, c.orphanMaxRetry)
      ensures survivors + deadLettered == |js| && deadLettered == |pairs|
    {
      ghost var q := Keys().q;
      survivors, deadLettered, pairs, js := reliableQueue.RecoverOrphans(now, c.orphanBatchSize);
      recovered := recovered + |Survivors(q, js, c.orphanMaxRetry)|;
    }

    method RecoverNow() returns (survivors: nat, deadLettered: nat, pairs: seq<(JobId, GroupId)>, ghost js: seq<JobId>)
      requires Valid() && here.Idle?
      modifies this, reliableQueue
      ensures Valid() && origin == old(origin) && mine == old(mine) + [Recover(js)]
      ensures here == (if pairs == [] then Idle else Reporting(pairs, false))
      ensures survivors + deadLettered == |js| && deadLettered == |pairs|
    {
      ghost var before := World();
      survivors, deadLettered, pairs, js := RecoverScript();
      RecoverIs(c, before.store, js, pairs, Keys());
      Did(before, Recover(js));
    }

    method RecoverOrphans()
      returns (survivors: nat, deadLettered: nat, pairs: seq<(JobId, GroupId)>, ghost js: seq<JobId>)
      requires Valid() && here.Idle?
      modifies this, fairQueue, reliableQueue, congestion, limiter
      ensures Valid() && origin == old(origin) && mine == old(mine) + [Recover(js)]
      ensures here == (if pairs == [] then Idle else Reporting(pairs, false))
      ensures survivors + deadLettered == |js| && deadLettered == |pairs|
    {
      Await();
      survivors, deadLettered, pairs, js := RecoverNow();
    }

    // ---- BackpressureService and FetcherService ----

    method Admit(j: JobId) returns (destination: Destination, ghost path: seq<Action>)
      requires Valid() && here == Fetched(j)
      modifies this, fairQueue, reliableQueue, congestion, limiter
      ensures Valid() && here.Idle? && origin == old(origin)
      ensures mine == old(mine) + path && AdmitPath(path, destination)
      ensures destination.READY? ==> reliableQueue.ready != [] && reliableQueue.ready[|reliableQueue.ready| - 1] == j
      ensures destination.NON_READY? ==> j in congestion.nonReady
      ensures destination.REJECTED? ==> j in rejected && |reliableQueue.ready| >= c.readyQueueMaxSize
    {
      var room := HasCapacity(j);
      if !room {
        return REJECTED, [CheckRoom];
      }
      var allowed := CheckRateLimit(j);
      if allowed {
        var pushed := PushReady(j);
        return if pushed then READY else REJECTED, [CheckRoom, CheckRate(true), Push];
      }
      ghost var x;
      var response;
      response, x := AddToNonReady(j);
      return NON_READY, [CheckRoom, CheckRate(false), x];
    }

    /** One round of the fetch loop: false if the ready queue is full, the fair queue empty or the job rejected. */
    method FetchOne() returns (accepted: bool)
      requires Valid() && here.Idle?
      modifies stats, this, fairQueue, reliableQueue, congestion, limiter
      ensures Valid() && here.Idle?
      ensures stats.totalFetched
        == old(stats.totalFetched) + (if accepted then 1 else 0) + (stats.totalRejected - old(stats.totalRejected))
      ensures stats.totalAdmittedReady + stats.totalAdmittedNonReady
        == old(stats.totalAdmittedReady + stats.totalAdmittedNonReady) + if accepted then 1 else 0
      ensures accepted ==>
        stats.totalRejected == old(stats.totalRejected) && stats.totalEmptyPolls == old(stats.totalEmptyPolls)
      ensures !accepted ==>
        && old(stats.totalRejected) <= stats.totalRejected && old(stats.totalEmptyPolls) <= stats.totalEmptyPolls
        && stats.totalRejected + stats.totalEmptyPolls <= old(stats.totalRejected + stats.totalEmptyPolls) + 1
    {
      Await();
      if |reliableQueue.ready| >= c.readyQueueMaxSize {
        return false;
      }
      var job := DequeueFair();
      if job.None? {
        stats.totalEmptyPolls := stats.totalEmptyPolls + 1;
        return false;
      }
      var destination, path := Admit(job.value);
      stats.Fetched(destination);
      return !destination.REJECTED?;
    }

    /** Up to `batch` jobs are taken and admitted; a full ready queue, an empty fair queue or a rejection ends
        the cycle. Every job taken is counted once, under where it went. */
    method FetchCycle(batch: nat) returns (fetched: nat)
      requires Valid() && here.Idle?
      modifies stats, this, fairQueue, reliableQueue, congestion, limiter
      ensures Valid() && here.Idle? && fetched <= batch
      ensures stats.totalAdmittedReady + stats.totalAdmittedNonReady
        == old(stats.totalAdmittedReady + stats.totalAdmittedNonReady) + fetched
      ensures stats.totalFetched - old(stats.totalFetched) == fetched + (stats.totalRejected - old(stats.totalRejected))
      ensures old(stats.totalRejected) <= stats.totalRejected && old(stats.totalEmptyPolls) <= stats.totalEmptyPolls
      ensures stats.totalRejected + stats.totalEmptyPolls
        <= old(stats.totalRejected + stats.totalEmptyPolls) + if fetched == batch then 0 else 1
    {
      fetched := 0;
      while fetched < batch
        invariant Valid() && here.Idle? && fetched <= batch
        invariant stats.totalAdmittedReady + stats.totalAdmittedNonReady
          == old(stats.totalAdmittedReady + stats.totalAdmittedNonReady) + fetched
        invariant stats.totalFetched - old(stats.totalFetched) == fetched
        invariant stats.totalRejected == old(stats.totalRejected) && stats.totalEmptyPolls == old(stats.totalEmptyPolls)
      {
        var accepted := FetchOne();
        if !accepted {
          break;
        }
        fetched := fetched + 1;
      }
    }

    // ---- DispatcherService ----

    /** One dispatch: skipped while another is under way or the ready queue is full. */
    method DispatchOnce() returns (moved: nat, ghost path: seq<Action>)
      requires Valid() && here.Idle?
      modifies stats, this, fairQueue, reliableQueue, congestion, limiter
      ensures Valid() && here.Idle? && stats.dispatching == old(stats.dispatching) && mine == old(mine) + path
      ensures old(stats.dispatching) ==> path == [] && moved == 0 && stats.totalCycles == old(stats.totalCycles)
      ensures !old(stats.dispatching) ==> stats.totalCycles == old(stats.totalCycles) + 1
      ensures !old(stats.dispatching) ==> if stats.totalSkipped == old(stats.totalSkipped)
        then |path| == 2 && path[0] == DispatchCheck && path[1].Dispatch? && moved == |path[1].js|
        else path == [DispatchCheck] && moved == 0 && stats.totalSkipped == old(stats.totalSkipped) + 1
      ensures stats.totalMoved == old(stats.totalMoved) + moved
    {
      if stats.dispatching {
        return 0, [];
      }
      stats.dispatching := true;
      stats.totalCycles := stats.totalCycles + 1;
      var room := ReadyRoom();
      if !room {
        stats.totalSkipped := stats.totalSkipped + 1;
        stats.dispatching := false;
        return 0, [DispatchCheck];
      }
      ghost var js;
      moved, js := MoveToReady();
      path := [DispatchCheck, Dispatch(js)];
      if moved > 0 {
        stats.totalMoved := stats.totalMoved + moved;
      }
      stats.dispatching := false;
    }

    // ---- WorkerPoolService and Worker ----

    /** Record first, acknowledge second. */
    method HandleJobComplete(j: JobId, success: bool, durationMs: nat) returns (ghost path: seq<Action>)
      requires Valid() && here == Completing(j, success, durationMs)
      modifies this, fairQueue, reliableQueue, congestion, limiter
      ensures Valid() && here.Idle? && mine == old(mine) + path
      ensures path == [Record, Acknowledge] || path == [Record, Acknowledge, ResetStats]
    {
      RecordJobResult(Outcome(j, success, durationMs), None);
      var isGroupCompleted, g := AckFair(j, None);
      path := [Record, Acknowledge];
      if isGroupCompleted {
        ResetGroupStats(g);
        path := [Record, Acknowledge, ResetStats];
      }
    }

    method HandleDeadLetter(j: JobId, retry: nat) returns (ghost path: seq<Action>)
      requires Valid() && here == Failing(j, retry) && retry >= c.workerMaxRetry
      modifies this, fairQueue, reliableQueue, congestion, limiter
      ensures Valid() && here.Idle? && mine == old(mine) + path && path == [Bury, Record, Acknowledge]
    {
      AppendDead(j, retry);
      RecordJobResult(Outcome(j, false, 0), None);
      var completed, g := AckFair(j, None);
      path := [Bury, Record, Acknowledge];
    }

    method HandleJobFailed(j: JobId, retry: nat) returns (ghost path: seq<Action>)
      requires Valid() && here == Failing(j, retry)
      modifies this, fairQueue, reliableQueue, congestion, limiter
      ensures Valid() && here.Idle? && mine == old(mine) + path && SettledPath(path, Retryable)
      ensures path[0] == if retry < c.workerMaxRetry then CountRetry else Bury
    {
      if retry < c.workerMaxRetry {
        IncrementRetries(j);
        ghost var x;
        var response;
        response, x := AddToNonReady(j);
        path := [CountRetry, x];
      } else {
        path := HandleDeadLetter(j, retry);
      }
    }

    /** Look, peek, read, pop: separate commands, between which the queue may change. */
    method ReliableDequeue() returns (job: Option<JobId>, ghost path: seq<Action>)
      requires Valid() && here.Idle?
      modifies this, fairQueue, reliableQueue, congestion, limiter
      ensures Valid() && mine == old(mine) + path && (path == [CheckReady] || path == [CheckReady, Peek, ReadMeta, Pop])
      ensures if job.None? then here.Idle?
        else here.Popped? && here.job == job.value && here.since <= now && |path| == 4
    {
      var some := AnyReady();
      if !some {
        return None, [CheckReady];
      }
      var front := PeekReady();
      var m := ReadJobMeta(front);
      job := PopReliable(m);
      path := [CheckReady, Peek, ReadMeta, Pop];
    }

    /** One look at the heartbeat timer. */
    method BeatWhenDue(j: JobId, dueAt: nat) returns (fired: bool)
      requires Valid() && here.Running? && here.job == j && here.renewed + BeatMs(c) <= dueAt
      modifies this, fairQueue, reliableQueue, congestion, limiter
      ensures Valid() && old(now) <= now && fired == (dueAt <= now)
      ensures here == if fired then old(here).(renewed := now) else old(here)
      ensures mine == old(mine) + if fired then [Heartbeat] else []
    {
      Await();
      fired := dueAt <= now;
      if fired {
        ExtendDeadline(j);
      }
    }

    /** The processor runs; it answers after the timer has been looked at `looks` times. Heartbeats come no faster than
        the interval, and none that is due is left out. */
    method ExecuteWithHeartbeat(j: JobId, looks: nat) returns (beats: nat)
      requires Valid() && here.Running? && here.job == j && here.renewed <= now
      modifies this, fairQueue, reliableQueue, congestion, limiter
      ensures Valid() && here.Running? && here.job == j && here.retry == old(here).retry
      ensures mine == old(mine) + Beats(beats)
      ensures beats * BeatMs(c) <= now - old(now)
      ensures looks > 0 ==> now < Max(old(now), here.renewed) + BeatMs(c)
    {
      var heartbeatIntervalMs := Max(1, c.jobTimeoutMs * 6 / 10);
      var dueAt := now + heartbeatIntervalMs;
      beats := 0;
      for i := 0 to looks
        invariant Valid() && here.Running? && here.job == j && here.retry == old(here).retry
        invariant mine == old(mine) + Beats(beats)
        invariant here.renewed + heartbeatIntervalMs <= dueAt && old(now) <= now
        invariant dueAt <= Max(old(now), here.renewed) + heartbeatIntervalMs
        invariant old(now) + Elapsed(beats + 1, heartbeatIntervalMs) <= dueAt
        invariant Elapsed(beats, heartbeatIntervalMs) <= now - old(now)
        invariant i > 0 ==> now < dueAt
      {
        var fired := BeatWhenDue(j, dueAt);
        if fired {
          beats, dueAt := beats + 1, now + heartbeatIntervalMs;
          assert Beats(beats) == Beats(beats - 1) + [Heartbeat];
        }
      }
      ElapsedIs(beats, heartbeatIntervalMs);
    }

    /** The processor runs, its job leaves the in-flight set, and the verdict is handled. */
    method Process(j: JobId, retry: nat, verdict: Verdict, durationMs: nat, looks: nat)
      returns (beats: nat, ghost tail: seq<Action>)
      requires Valid() && here.Running? && here.job == j && here.retry == retry && here.renewed <= now
      modifies this, fairQueue, reliableQueue, congestion, limiter
      ensures Valid() && here.Idle? && SettledPath(tail, verdict)
      ensures mine == old(mine) + (Beats(beats) + [Settle(verdict, durationMs)] + tail)
    {
      beats := ExecuteWithHeartbeat(j, looks);
      ReliableAck(j, verdict, durationMs);
      if verdict.Retryable? {
        tail := HandleJobFailed(j, retry);
      } else {
        tail := HandleJobComplete(j, verdict.Success?, durationMs);
      }
    }

    /** One tick of the worker loop. */
    method Tick(verdict: Verdict, durationMs: nat, looks: nat) returns (beats: nat, ghost path: seq<Action>)
      requires Valid() && here.Idle?
      modifies this, fairQueue, reliableQueue, congestion, limiter
      ensures Valid() && here.Idle? && mine == old(mine) + path && TickPath(path, verdict, durationMs, beats)
    {
      beats := 0;
      var job;
      job, path := ReliableDequeue();
      if job.None? {
        return;
      }
      var retry := LoadJob(job.value);
      if retry.None? {
        path := [CheckReady, Peek, ReadMeta, Pop, Discard];
        return;
      }
      ghost var tail;
      beats, tail := Process(job.value, retry.value, verdict, durationMs, looks);
      path := Executed(verdict, durationMs, beats) + tail;
      assert path[..6 + beats] == Executed(verdict, durationMs, beats) && path[6 + beats..] == tail;
    }

    // ---- OrphanRecoveryService ----

    method HandleOne(pairs: seq<(JobId, GroupId)>)
      requires Valid() && pairs != [] && here == Reporting(pairs, false)
      modifies this, fairQueue, reliableQueue, congestion, limiter
      ensures Valid() && here == (if |pairs| == 1 then Idle else Reporting(pairs[1..], false))
      ensures mine == old(mine) + [Record, Acknowledge]
    {
      RecordJobResult(Outcome(pairs[0].0, false, 0), Some(pairs[0].1));
      var completed, g := AckFair(pairs[0].0, Some(pairs[0].1));
    }

    /** Records and acknowledges what recovery dead-lettered, pair by pair. */
    method HandleDeadLetteredOrphans(pairs: seq<(JobId, GroupId)>)
      requires Valid() && here == (if pairs == [] then Idle else Reporting(pairs, false))
      modifies this, fairQueue, reliableQueue, congestion, limiter
      ensures Valid() && here.Idle? && mine == old(mine) + Reports(|pairs|)
    {
      var rest := pairs;
      while rest != []
        invariant Valid() && here == (if rest == [] then Idle else Reporting(rest, false))
        invariant |rest| <= |pairs| && mine == old(mine) + Reports(|pairs| - |rest|)
        decreases |rest|
      {
        HandleOne(rest);
        rest := rest[1..];
      }
    }

    /** Recovers one batch, then records and acknowledges every job it dead-lettered. */
    method RunOnce() returns (survivors: nat, deadLettered: nat, ghost js: seq<JobId>)
      requires Valid() && here.Idle?
      modifies stats, this, fairQueue, reliableQueue, congestion, limiter
      ensures Valid() && here.Idle? && survivors + deadLettered == |js|
      ensures mine == old(mine) + [Recover(js)] + Reports(deadLettered)
      ensures stats.totalRecovered == old(stats.totalRecovered) + survivors
      ensures stats.totalDeadLettered == old(stats.totalDeadLettered) + deadLettered
    {
      var pairs;
      survivors, deadLettered, pairs, js := RecoverOrphans();
      stats.totalRecovered := stats.totalRecovered + survivors;
      stats.totalDeadLettered := stats.totalDeadLettered + deadLettered;
      HandleDeadLetteredOrphans(pairs);
    }
  }
}
