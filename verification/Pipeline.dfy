/** The job pipeline as a state machine: one shared store, any number of actors, one step per store command. */
module Pipeline {
  import opened Base
  import opened FairQueue
  import opened ReliableQueue
  import opened Results
  import opened SortedSet
  import Backoff

  type ActorId = nat

  /** settleMs and beatDelayMs are no settings of the source. The first bounds what loading and settling a job take
      beside jobTimeoutMs; the second how long after its moment a heartbeat, or the settlement in its stead, reaches
      the store. */
  datatype Config = Config(
    alpha: real,
    globalRps: nat,
    readyQueueMaxSize: nat,
    dispatchBatchSize: nat,
    baseBackoffMs: nat,
    maxBackoffMs: nat,
    workerMaxRetry: nat,
    orphanMaxRetry: nat,
    orphanBatchSize: nat,
    jobTimeoutMs: nat,
    settleMs: nat,
    beatDelayMs: nat,
    ackTimeoutMs: nat)

  /** The heartbeat interval; a timer's interval is at least one. */
  function BeatMs(c: Config): nat {
    Max(1, c.jobTimeoutMs * 6 / 10)
  }

  /** Six tenths of the job timeout, in whole milliseconds, and at least one. */
  lemma BeatMeans(c: Config)
    ensures var b := BeatMs(c);
      1 <= b && (10 * b <= 6 * c.jobTimeoutMs < 10 * (b + 1) || (b == 1 && 6 * c.jobTimeoutMs < 10))
  {
  }

  /** Where an actor's program stands between two of its awaits. */
  datatype Ctl =
    | Idle
    // fetcher: FetcherService.fetchCycle and BackpressureService.admit
    | Fetched(job: JobId)
    | Roomy(job: JobId)
    | Allowed(job: JobId)
    | Throttled(job: JobId)
    // dispatcher: DispatcherService.dispatch
    | Dispatching
    // worker: ReliableQueueService.dequeue and Worker.tick
    | Looking
    | Peeked(front: Option<JobId>)
    | Armed(meta: Meta)
    | Popped(job: JobId, since: nat)
    | Running(job: JobId, retry: nat, since: nat, renewed: nat)
    // worker: WorkerPoolService.handleJobComplete, handleJobFailed, handleDeadLetter
    | Completing(job: JobId, success: bool, durationMs: nat)
    | Recorded(job: JobId)
    | Resetting(group: GroupId)
    | Failing(job: JobId, retry: nat)
    | Requeueing(job: JobId)
    | Burying(job: JobId)
    | Buried(job: JobId)
    // recoverer: OrphanRecoveryService.runOnce and handleDeadLetteredOrphans
    | Reporting(pairs: seq<(JobId, GroupId)>, recorded: bool)

  /** How a processor call ends: a thrown error or a timeout counts as Retryable. */
  datatype Verdict = Success | Fatal | Retryable

  /** One store command of an actor's program, or its crash. */
  datatype Action =
    | Fetch(l: Level, g: GroupId)
    | Poll
    | CheckRoom
    | CheckRate(allowed: bool)
    | Push
    | Delay(activeGroups: nat)
    | DelayFixed
    | DispatchCheck
    | Dispatch(js: seq<JobId>)
    | CheckReady
    | Peek
    | ReadMeta
    | Pop
    | Load
    | Discard
    | Heartbeat
    | Settle(verdict: Verdict, durationMs: nat)
    | Record
    | Acknowledge
    | ResetStats
    | CountRetry
    | Bury
    | Recover(js: seq<JobId>)
    | Crash

  /** Actions of fetchers and dispatchers; the others are those of workers and recoverers. */
  predicate Supplies(x: Action) {
    || x.Fetch? || x.Poll? || x.CheckRoom? || x.CheckRate? || x.Push? || x.Delay? || x.DelayFixed?
    || x.DispatchCheck? || x.Dispatch?
  }

  /** Actions up to the end of a processor call. */
  predicate Executes(x: Action) {
    x.CheckReady? || x.Peek? || x.ReadMeta? || x.Pop? || x.Load? || x.Discard? || x.Heartbeat? || x.Settle?
  }

  datatype Event =
    | Submit(g: GroupId, j: JobId, base: real, l: Level)
    | Tick(d: nat)
    | Release(g: GroupId, n: nat)
    | By(a: ActorId, x: Action)

  /** The store's keys and clock, and five records the store does not keep: jobs finished, rejected
      by admission, or lost in a crashed actor's hand; how often each job was handed to a worker;
      and how many orphans were put back on the ready list. */
  datatype Store = Store(
    fair: Fair,
    now: nat,
    q: Queues,
    nonReady: map<JobId, nat>,
    congestion: map<GroupId, nat>,
    tallies: map<GroupId, Tally>,
    finished: set<JobId>,
    rejected: set<JobId>,
    lost: set<JobId>,
    runs: map<JobId, nat>,
    recovered: nat)
  {
    function Tally(g: GroupId): Tally {
      TallyOf(tallies, g)
    }

    function AddResult(g: GroupId, o: Outcome): Store {
      this.(tallies := tallies[g := Tally(g).Record(o)])
    }

    /** move-to-ready for one member of the batch. */
    function MoveOne(j: JobId): Store {
      this.(
        nonReady := nonReady - {j},
        q := q.(ready := q.ready + [j]),
        congestion := if j in q.groups then congestion[q.groups[j] := Max(0, CountAt(congestion, q.groups[j]) - 1)]
          else congestion)
    }

    function Move(js: seq<JobId>): Store {
      if js == [] then this else Move(js[..|js| - 1]).MoveOne(js[|js| - 1])
    }
  }

  datatype State = State(store: Store, actors: map<ActorId, Ctl>)
  {
    function At(a: ActorId): Ctl {
      if a in actors then actors[a] else Idle
    }
  }

  function Start(now: nat): State {
    var q := Queues([], map[], map[], [], map[], map[]);
    State(Store(FairQueue.EMPTY, now, q, map[], map[], map[], {}, {}, {}, map[], 0), map[])
  }

  /** The job an actor alone is responsible for: it is in no queue. */
  function Hand(k: Ctl): Option<JobId> {
    match k
    case Fetched(j) => Some(j)
    case Roomy(j) => Some(j)
    case Allowed(j) => Some(j)
    case Throttled(j) => Some(j)
    case Completing(j, _, _) => Some(j)
    case Recorded(j) => Some(j)
    case Failing(j, _) => Some(j)
    case Requeueing(j) => Some(j)
    case _ => None
  }

  /** The job an actor is executing; it is still in the in-flight set. */
  function Executing(k: Ctl): Option<JobId> {
    match k
    case Popped(j, _) => Some(j)
    case Running(j, _, _, _) => Some(j)
    case _ => None
  }

  /** An actor at k may take action x. */
  ghost predicate Guard(c: Config, s: Store, k: Ctl, x: Action) {
    match x
    case Fetch(l, g) => k.Idle? && s.fair.Serves(l, g)
    case Poll => k.Idle? && s.fair.Drained()
    case CheckRoom => k.Fetched?
    case CheckRate(_) => k.Roomy?
    case Push => k.Allowed?
    case Delay(_) => k.Throttled? || k.Requeueing?
    case DelayFixed => k.Throttled? || k.Requeueing?
    case DispatchCheck => k.Idle?
    case Dispatch(js) => k.Dispatching? && DueBatch(s.nonReady, s.now, c.dispatchBatchSize, js)
    case CheckReady => k.Idle?
    case Peek => k.Looking?
    case ReadMeta => k.Peeked?
    case Pop => k.Armed?
    case Load => k.Popped? && k.job in s.q.groups
    case Discard => k.Popped? && k.job !in s.q.groups
    case Heartbeat => k.Running? && k.renewed + BeatMs(c) <= s.now
    case Settle(_, _) => k.Running?
    case Record => k.Completing? || k.Burying? || (k.Reporting? && k.pairs != [] && !k.recorded)
    case Acknowledge => k.Recorded? || k.Buried? || (k.Reporting? && k.pairs != [] && k.recorded)
    case ResetStats => k.Resetting?
    case CountRetry => k.Failing? && k.retry < c.workerMaxRetry
    case Bury => k.Failing? && k.retry >= c.workerMaxRetry
    case Recover(js) => k.Idle? && DueBatch(s.q.deadlines, s.now, c.orphanBatchSize, js)
    case Crash => true
  }

  predicate HasRoom(c: Config, s: Store) {
    |s.q.ready| < c.readyQueueMaxSize
  }

  /** Where the actor stands after action x. */
  ghost function Control(c: Config, s: Store, k: Ctl, x: Action): Ctl
    requires Guard(c, s, k, x)
  {
    match x
    case Fetch(l, g) => Fetched(s.fair.Pending(g)[0])
    case CheckRoom => if HasRoom(c, s) then Roomy(k.job) else Idle
    case CheckRate(allowed) => if allowed then Allowed(k.job) else Throttled(k.job)
    case DispatchCheck => if HasRoom(c, s) then Dispatching else Idle
    case CheckReady => if s.q.ready == [] then Idle else Looking
    case Peek => Peeked(if s.q.ready == [] then None else Some(s.q.ready[0]))
    case ReadMeta =>
      if k.front.None? then Armed(Meta(0, NO_GROUP))
      else Armed(Meta(CountAt(s.q.retries, k.front.value), s.q.GroupOf(k.front.value)))
    case Pop => if s.q.ready == [] then Idle else Popped(s.q.ready[0], s.now)
    case Load => Running(k.job, CountAt(s.q.retries, k.job), k.since, k.since)
    case Heartbeat => k.(renewed := s.now)
    case Settle(Success, durationMs) => Completing(k.job, true, durationMs)
    case Settle(Fatal, durationMs) => Completing(k.job, false, durationMs)
    case Settle(Retryable, _) => Failing(k.job, k.retry)
    case Record => if k.Completing? then Recorded(k.job) else if k.Burying? then Buried(k.job)
      else Reporting(k.pairs, true)
    case Acknowledge =>
      if k.Recorded? then if s.fair.AckCompletes(s.q.GroupOf(k.job)) then Resetting(s.q.GroupOf(k.job)) else Idle
      else if k.Buried? || |k.pairs| == 1 then Idle
      else Reporting(k.pairs[1..], false)
    case CountRetry => Requeueing(k.job)
    case Bury => Burying(k.job)
    case Recover(js) =>
      var pairs := s.q.Report(js, s.now, c.orphanMaxRetry);
      if pairs == [] then Idle else Reporting(pairs, false)
    case _ => Idle
  }

  /** What action x does to the store. */
  ghost function Effect(c: Config, s: Store, k: Ctl, x: Action): Store
    requires Guard(c, s, k, x)
  {
    match x
    case Fetch(l, g) => s.(fair := s.fair.Dequeue(c.alpha, s.now, l, g))
    case Poll => s.(fair := s.fair.(scores := map[]))
    case CheckRoom => if HasRoom(c, s) then s else s.(rejected := s.rejected + {k.job})
    case Push =>
      if HasRoom(c, s) then s.(q := s.q.(ready := s.q.ready + [k.job])) else s.(rejected := s.rejected + {k.job})
    case Delay(activeGroups) =>
      var g := s.q.GroupOf(k.job);
      var count := CountAt(s.congestion, g) + 1;
      var delay := Backoff.ScheduledDelay(c.baseBackoffMs, c.maxBackoffMs, count,
        Backoff.Speed(c.globalRps, activeGroups));
      s.(congestion := s.congestion[g := count], nonReady := s.nonReady[k.job := s.now + delay])
    case DelayFixed => s.(nonReady := s.nonReady[k.job := s.now + c.baseBackoffMs])
    case Dispatch(js) => s.Move(js)
    case Pop =>
      if s.q.ready == [] then s
      else s.(q := s.q.Pop(s.now, c.ackTimeoutMs, k.meta),
        runs := s.runs[s.q.ready[0] := CountAt(s.runs, s.q.ready[0]) + 1])
    case Discard => s.(q := s.q.Remove(k.job))
    case Heartbeat => s.(q := s.q.Extend(k.job, s.now, c.ackTimeoutMs))
    case Settle(_, _) => s.(q := s.q.Remove(k.job))
    case Record =>
      if k.Completing? then s.AddResult(s.q.GroupOf(k.job), Outcome(k.job, k.success, k.durationMs))
      else if k.Burying? then s.AddResult(s.q.GroupOf(k.job), Outcome(k.job, false, 0))
      else s.AddResult(k.pairs[0].1, Outcome(k.pairs[0].0, false, 0))
    case Acknowledge =>
      if k.Recorded? then s.(fair := s.fair.Ack(s.q.GroupOf(k.job)), finished := s.finished + {k.job})
      else if k.Buried? then s.(fair := s.fair.Ack(s.q.GroupOf(k.job)))
      else s.(fair := s.fair.Ack(k.pairs[0].1))
    case ResetStats => s.(congestion := s.congestion - {k.group})
    case CountRetry => s.(q := s.q.(retries := s.q.retries[k.job := CountAt(s.q.retries, k.job) + 1]))
    case Bury => s.(q := s.q.(dead := s.q.dead + [DeadEntry(k.job, s.q.GroupOf(k.job), k.retry, s.now)]))
    case Recover(js) =>
      s.(q := s.q.Recover(js, s.now, c.orphanMaxRetry),
         recovered := s.recovered + |Survivors(s.q, js, c.orphanMaxRetry)|)
    case Crash => if Hand(k).Some? then s.(lost := s.lost + {Hand(k).value}) else s
    case _ => s
  }

  ghost predicate Enabled(c: Config, s: State, e: Event) {
    match e
    case Submit(_, j, _, _) => j !in s.store.q.groups
    case Tick(_) => true
    case Release(_, _) => true
    case By(a, x) => Guard(c, s.store, s.At(a), x)
  }

  ghost function Next(c: Config, s: State, e: Event): State
    requires Enabled(c, s, e)
  {
    var t := s.store;
    match e
    case Submit(g, j, base, l) =>
      var q := t.q.(groups := t.q.groups[j := g], retries := t.q.retries[j := 0]);
      s.(store := t.(fair := t.fair.Enqueue(c.alpha, t.now, g, j, base, l), q := q))
    case Tick(d) => s.(store := t.(now := t.now + d))
    case Release(g, n) => s.(store := t.(congestion := t.congestion[g := Max(0, CountAt(t.congestion, g) - n)]))
    case By(a, x) => State(Effect(c, t, s.At(a), x), s.actors[a := Control(c, t, s.At(a), x)])
  }

  ghost predicate Run(c: Config, s: State, es: seq<Event>, s': State)
    decreases |es|
  {
    if es == [] then s == s' else Enabled(c, s, es[0]) && Run(c, Next(c, s, es[0]), es[1..], s')
  }
}
