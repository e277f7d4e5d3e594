/** Retries: as long as no pop stores a retry count that makes recovery put back a job without retries left, each
    job is executed at most once more than the larger of the two retry limits. */
module PipelineRetries {
  import opened Base
  import opened FairQueue
  import opened ReliableQueue
  import opened SortedSet
  import opened Pipeline
  import opened PipelinePlaces
  import PipelineResults

  function MaxRetry(c: Config): nat {
    Max(c.workerMaxRetry, c.orphanMaxRetry)
  }

  function Retries(s: Store, j: JobId): nat {
    CountAt(s.q.retries, j)
  }

  function Runs(s: Store, j: JobId): nat {
    CountAt(s.runs, j)
  }

  function TrueMeta(s: Store, j: JobId): Meta {
    Meta(Retries(s, j), s.q.GroupOf(j))
  }

  /** Stored with job j, the metadata lets recovery put j back only while j has retries left. */
  predicate Sparing(c: Config, s: Store, j: JobId, m: Meta) {
    m.retry < c.orphanMaxRetry ==> Retries(s, j) < MaxRetry(c)
  }

  /** What a pop stores is sparing. The metadata may be stale, or another job's. */
  predicate SparingAction(c: Config, s: Store, k: Ctl, x: Action) {
    x.Pop? && k.Armed? && s.q.ready != [] ==> Sparing(c, s, s.q.ready[0], k.meta)
  }

  predicate SparingEvent(c: Config, s: State, e: Event) {
    e.By? ==> SparingAction(c, s.store, s.At(e.a), e.x)
  }

  /** A held job that has not been handed to a worker since its last counted retry. */
  predicate Fresh(k: Ctl) {
    k.Fetched? || k.Roomy? || k.Allowed? || k.Throttled? || k.Requeueing?
  }

  predicate NotYetRun(p: Place) {
    p == Waiting || p == OnReady || p == Delayed
  }

  predicate JobCounts(c: Config, s: Store, L: Ledger, j: JobId)
    requires j in L
  {
    && Retries(s, j) <= MaxRetry(c)
    && Runs(s, j) <= Retries(s, j) + 1
    && (NotYetRun(L[j]) ==> Runs(s, j) == Retries(s, j))
    && (L[j] == Flying ==> Runs(s, j) == Retries(s, j) + 1 && j in s.q.meta && Sparing(c, s, j, s.q.meta[j]))
  }

  ghost predicate AllCount(c: Config, s: Store, L: Ledger) {
    forall j :: j in L ==> JobCounts(c, s, L, j)
  }

  predicate HandCounts(s: Store, k: Ctl) {
    && (Fresh(k) ==> Runs(s, k.job) == Retries(s, k.job))
    && (k.Running? || k.Failing? ==> k.retry == Retries(s, k.job))
    && (k.Failing? ==> Runs(s, k.job) == Retries(s, k.job) + 1)
  }

  /** What is counted for job i and what its in-flight entry says stay as they were. */
  ghost predicate SameCounts(s: Store, s': Store, i: JobId) {
    && Retries(s', i) == Retries(s, i) && Runs(s', i) == Runs(s, i) && s'.q.GroupOf(i) == s.q.GroupOf(i)
    && (i in s'.q.meta <==> i in s.q.meta) && (i in s.q.meta ==> s'.q.meta[i] == s.q.meta[i])
  }

  ghost predicate SamePlace(L: Ledger, L': Ledger, i: JobId) {
    (i in L' <==> i in L) && (i in L ==> L'[i] == L[i])
  }

  /** The jobs whose counts or place action x changes. */
  function Touched(s: Store, k: Ctl, x: Action): seq<JobId> {
    match x
    case Fetch(l, g) => if s.fair.Pending(g) != [] then [s.fair.Pending(g)[0]] else []
    case Dispatch(js) => js
    case Pop => if s.q.ready != [] then [s.q.ready[0]] else []
    case Recover(js) => js
    case _ => if Hand(k).Some? then [Hand(k).value] else if Executing(k).Some? then [Executing(k).value] else []
  }

  lemma OthersSameCountsSupply(c: Config, s: Store, k: Ctl, x: Action, i: JobId)
    requires Guard(c, s, k, x) && !x.Dispatch? && !x.Recover? && i !in Touched(s, k, x)
    requires Supplies(x)
    ensures SameCounts(s, Effect(c, s, k, x), i)
  {
    match x
    case Fetch(_, _) =>
    case Poll =>
    case CheckRoom =>
    case CheckRate(_) =>
    case Push =>
    case Delay(_) =>
    case DelayFixed =>
    case DispatchCheck =>
    case _ =>
  }

  lemma OthersSameCountsWork(c: Config, s: Store, k: Ctl, x: Action, i: JobId)
    requires Guard(c, s, k, x) && !x.Dispatch? && !x.Recover? && i !in Touched(s, k, x)
    requires !Supplies(x)
    ensures SameCounts(s, Effect(c, s, k, x), i)
  {
    match x
    case CheckReady =>
    case Peek =>
    case ReadMeta =>
    case Pop =>
    case Load =>
    case Discard =>
    case Heartbeat =>
    case Settle(_, _) =>
    case Record =>
    case Acknowledge =>
    case ResetStats =>
    case CountRetry =>
    case Bury =>
    case Crash =>
    case _ =>
  }

  lemma OthersSameCounts(c: Config, s: Store, k: Ctl, x: Action, i: JobId)
    requires Guard(c, s, k, x) && !x.Dispatch? && !x.Recover? && i !in Touched(s, k, x)
    ensures SameCounts(s, Effect(c, s, k, x), i)
  {
    if Supplies(x) {
      OthersSameCountsSupply(c, s, k, x, i);
    } else {
      OthersSameCountsWork(c, s, k, x, i);
    }
  }

  lemma OthersSamePlace(c: Config, s: Store, L: Ledger, a: ActorId, k: Ctl, x: Action, i: JobId)
    requires Guard(c, s, k, x) && !x.Dispatch? && !x.Recover? && i !in Touched(s, k, x)
    ensures SamePlace(L, Moved(c, s, a, k, x, L), i)
  {
    match x
    case Fetch(_, _) =>
    case Poll =>
    case CheckRoom =>
    case CheckRate(_) =>
    case Push =>
    case Delay(_) =>
    case DelayFixed =>
    case DispatchCheck =>
    case CheckReady =>
    case Peek =>
    case ReadMeta =>
    case Pop =>
    case Load =>
    case Discard =>
    case Heartbeat =>
    case Settle(_, _) =>
    case Record =>
    case Acknowledge =>
    case ResetStats =>
    case CountRetry =>
    case Bury =>
    case Crash =>
    case _ =>
  }

  lemma SingleCountsSupply(c: Config, s: Store, L: Ledger, a: ActorId, k: Ctl, x: Action, j: JobId)
    requires Guard(c, s, k, x) && !x.Dispatch? && !x.Recover? && !x.Discard?
    requires Touched(s, k, x) == [j] && j in L && JobCounts(c, s, L, j) && HandCounts(s, k)
    requires SparingAction(c, s, k, x)
    requires Hand(k).Some? ==> L[j] == Held(a)
    requires Executing(k).Some? ==> L[j] == Flying
    requires x.Fetch? ==> L[j] == Waiting
    requires x.Pop? ==> L[j] == OnReady
    requires Supplies(x)
    ensures j in Moved(c, s, a, k, x, L) && JobCounts(c, Effect(c, s, k, x), Moved(c, s, a, k, x, L), j)
  {
    match x
    case Fetch(_, _) =>
    case Poll =>
    case CheckRoom =>
    case CheckRate(_) =>
    case Push =>
    case Delay(_) =>
    case DelayFixed =>
    case DispatchCheck =>
    case _ =>
  }

  lemma SingleCountsFlight(c: Config, s: Store, L: Ledger, a: ActorId, k: Ctl, x: Action, j: JobId)
    requires Guard(c, s, k, x) && !x.Dispatch? && !x.Recover? && !x.Discard?
    requires Touched(s, k, x) == [j] && j in L && JobCounts(c, s, L, j) && HandCounts(s, k)
    requires SparingAction(c, s, k, x)
    requires Hand(k).Some? ==> L[j] == Held(a)
    requires Executing(k).Some? ==> L[j] == Flying
    requires x.Fetch? ==> L[j] == Waiting
    requires x.Pop? ==> L[j] == OnReady
    requires Executes(x)
    ensures j in Moved(c, s, a, k, x, L) && JobCounts(c, Effect(c, s, k, x), Moved(c, s, a, k, x, L), j)
  {
    match x
    case CheckReady =>
    case Peek =>
    case ReadMeta =>
    case Pop =>
    case Load =>
    case Heartbeat =>
    case Settle(_, _) =>
    case _ =>
  }

  lemma SingleCountsBooks(c: Config, s: Store, L: Ledger, a: ActorId, k: Ctl, x: Action, j: JobId)
    requires Guard(c, s, k, x) && !x.Dispatch? && !x.Recover? && !x.Discard?
    requires Touched(s, k, x) == [j] && j in L && JobCounts(c, s, L, j) && HandCounts(s, k)
    requires SparingAction(c, s, k, x)
    requires Hand(k).Some? ==> L[j] == Held(a)
    requires Executing(k).Some? ==> L[j] == Flying
    requires x.Fetch? ==> L[j] == Waiting
    requires x.Pop? ==> L[j] == OnReady
    requires !Supplies(x) && !Executes(x)
    ensures j in Moved(c, s, a, k, x, L) && JobCounts(c, Effect(c, s, k, x), Moved(c, s, a, k, x, L), j)
  {
    match x
    case Record =>
    case Acknowledge =>
    case ResetStats =>
    case CountRetry =>
    case Bury =>
    case Crash =>
    case _ =>
  }

  /** Counts after a step that moves at most one job. */
  lemma SingleCounts(c: Config, s: Store, L: Ledger, a: ActorId, k: Ctl, x: Action, j: JobId)
    requires Guard(c, s, k, x) && !x.Dispatch? && !x.Recover? && !x.Discard?
    requires Touched(s, k, x) == [j] && j in L && JobCounts(c, s, L, j) && HandCounts(s, k)
    requires SparingAction(c, s, k, x)
    requires Hand(k).Some? ==> L[j] == Held(a)
    requires Executing(k).Some? ==> L[j] == Flying
    requires x.Fetch? ==> L[j] == Waiting
    requires x.Pop? ==> L[j] == OnReady
    ensures j in Moved(c, s, a, k, x, L) && JobCounts(c, Effect(c, s, k, x), Moved(c, s, a, k, x, L), j)
  {
    if Supplies(x) {
      SingleCountsSupply(c, s, L, a, k, x, j);
    } else if Executes(x) {
      SingleCountsFlight(c, s, L, a, k, x, j);
    } else {
      SingleCountsBooks(c, s, L, a, k, x, j);
    }
  }

  lemma HandCountsNextSupply(c: Config, s: Store, L: Ledger, k: Ctl, x: Action)
    requires Guard(c, s, k, x) && !x.Dispatch? && !x.Recover? && HandCounts(s, k)
    requires x.Fetch? ==> Runs(s, s.fair.Pending(x.g)[0]) == Retries(s, s.fair.Pending(x.g)[0])
    requires Executing(k).Some? ==> Runs(s, k.job) == Retries(s, k.job) + 1
    requires Supplies(x)
    ensures HandCounts(Effect(c, s, k, x), Control(c, s, k, x))
  {
    match x
    case Fetch(_, _) =>
    case Poll =>
    case CheckRoom =>
    case CheckRate(_) =>
    case Push =>
    case Delay(_) =>
    case DelayFixed =>
    case DispatchCheck =>
    case _ =>
  }

  lemma HandCountsNextFlight(c: Config, s: Store, L: Ledger, k: Ctl, x: Action)
    requires Guard(c, s, k, x) && !x.Dispatch? && !x.Recover? && HandCounts(s, k)
    requires x.Fetch? ==> Runs(s, s.fair.Pending(x.g)[0]) == Retries(s, s.fair.Pending(x.g)[0])
    requires Executing(k).Some? ==> Runs(s, k.job) == Retries(s, k.job) + 1
    requires Executes(x)
    ensures HandCounts(Effect(c, s, k, x), Control(c, s, k, x))
  {
    match x
    case CheckReady =>
    case Peek =>
    case ReadMeta =>
    case Pop =>
    case Load =>
    case Discard =>
    case Heartbeat =>
    case Settle(_, _) =>
    case _ =>
  }

  lemma HandCountsNextBooks(c: Config, s: Store, L: Ledger, k: Ctl, x: Action)
    requires Guard(c, s, k, x) && !x.Dispatch? && !x.Recover? && HandCounts(s, k)
    requires x.Fetch? ==> Runs(s, s.fair.Pending(x.g)[0]) == Retries(s, s.fair.Pending(x.g)[0])
    requires Executing(k).Some? ==> Runs(s, k.job) == Retries(s, k.job) + 1
    requires !Supplies(x) && !Executes(x)
    ensures HandCounts(Effect(c, s, k, x), Control(c, s, k, x))
  {
    match x
    case Record =>
    case Acknowledge =>
    case ResetStats =>
    case CountRetry =>
    case Bury =>
    case Crash =>
    case _ =>
  }

  lemma HandCountsNext(c: Config, s: Store, L: Ledger, k: Ctl, x: Action)
    requires Guard(c, s, k, x) && !x.Dispatch? && !x.Recover? && HandCounts(s, k)
    requires x.Fetch? ==> Runs(s, s.fair.Pending(x.g)[0]) == Retries(s, s.fair.Pending(x.g)[0])
    requires Executing(k).Some? ==> Runs(s, k.job) == Retries(s, k.job) + 1
    ensures HandCounts(Effect(c, s, k, x), Control(c, s, k, x))
  {
    if Supplies(x) {
      HandCountsNextSupply(c, s, L, k, x);
    } else if Executes(x) {
      HandCountsNextFlight(c, s, L, k, x);
    } else {
      HandCountsNextBooks(c, s, L, k, x);
    }
  }

  ghost predicate BatchIn(L: Ledger, js: seq<JobId>, p: Place) {
    forall n :: 0 <= n < |js| ==> js[n] in L && L[js[n]] == p
  }

  /** The places, before the step, of the jobs a step touches. */
  ghost predicate Seated(s: Store, L: Ledger, a: ActorId, k: Ctl, x: Action) {
    if x.Dispatch? then BatchIn(L, x.js, Delayed) && NoDup(x.js)
    else if x.Recover? then BatchIn(L, x.js, Flying) && NoDup(x.js)
    else if Touched(s, k, x) == [] then true
    else
      var j := Touched(s, k, x)[0];
      && |Touched(s, k, x)| == 1 && j in L && !x.Discard?
      && (Hand(k).Some? ==> L[j] == Held(a)) && (Executing(k).Some? ==> L[j] == Flying)
      && (x.Fetch? ==> L[j] == Waiting) && (x.Pop? ==> L[j] == OnReady)
  }

  lemma SeatingQueues(c: Config, s: Store, L: Ledger, a: ActorId, k: Ctl, x: Action)
    requires Guard(c, s, k, x) && (x.Fetch? || x.Pop? || x.Dispatch? || x.Recover?)
    requires PendingHolds(s.fair, s.q.groups, L) && ListHolds(s.q.ready, L, OnReady)
    requires SetHolds(s.nonReady.Keys, L, Delayed) && SetHolds(s.q.deadlines.Keys, L, Flying)
    ensures Seated(s, L, a, k, x)
  {
    if x.Fetch? {
      assert s.fair.Pending(x.g)[0] in s.fair.Pending(x.g);
    } else if x.Pop? && s.q.ready != [] {
      assert s.q.ready[0] in s.q.ready;
    } else if x.Dispatch? {
      assert forall n :: 0 <= n < |x.js| ==> x.js[n] in s.nonReady.Keys;
    } else if x.Recover? {
      assert forall n :: 0 <= n < |x.js| ==> x.js[n] in s.q.deadlines.Keys;
    }
  }

  lemma SeatingHand(c: Config, s: Store, L: Ledger, a: ActorId, k: Ctl, x: Action)
    requires Guard(c, s, k, x) && !(x.Fetch? || x.Pop? || x.Dispatch? || x.Recover?)
    requires Hand(k).Some? && OwnHand(L, a, k)
    ensures Seated(s, L, a, k, x)
  {
    InHand(L, a, k);
  }

  lemma SeatingRun(c: Config, s: Store, L: Ledger, a: ActorId, k: Ctl, x: Action)
    requires Guard(c, s, k, x) && !(x.Fetch? || x.Pop? || x.Dispatch? || x.Recover?)
    requires Hand(k).None? && L.Keys == s.q.groups.Keys && OwnRun(c, s, L, k)
    ensures Seated(s, L, a, k, x)
  {
  }

  lemma Seating(c: Config, s: Store, L: Ledger, a: ActorId, k: Ctl, x: Action)
    requires Ready(c, s, L, a, k) && Guard(c, s, k, x)
    ensures Seated(s, L, a, k, x)
  {
    if x.Fetch? || x.Pop? || x.Dispatch? || x.Recover? {
      SeatingQueues(c, s, L, a, k, x);
    } else if Hand(k).Some? {
      SeatingHand(c, s, L, a, k, x);
    } else {
      SeatingRun(c, s, L, a, k, x);
    }
  }

  lemma SingleHandCounts(c: Config, s: Store, L: Ledger, a: ActorId, k: Ctl, x: Action)
    requires Seated(s, L, a, k, x) && Guard(c, s, k, x) && !x.Dispatch? && !x.Recover?
    requires AllCount(c, s, L) && HandCounts(s, k)
    ensures HandCounts(Effect(c, s, k, x), Control(c, s, k, x))
  {
    if Touched(s, k, x) != [] {
      assert JobCounts(c, s, L, Touched(s, k, x)[0]);
    }
    HandCountsNext(c, s, L, k, x);
  }

  lemma SingleAllCount(c: Config, s: Store, L: Ledger, a: ActorId, k: Ctl, x: Action, i: JobId)
    requires Seated(s, L, a, k, x) && Guard(c, s, k, x) && !x.Dispatch? && !x.Recover?
    requires AllCount(c, s, L) && HandCounts(s, k) && SparingAction(c, s, k, x)
    requires i in Moved(c, s, a, k, x, L)
    ensures JobCounts(c, Effect(c, s, k, x), Moved(c, s, a, k, x, L), i)
  {
    if i in Touched(s, k, x) {
      assert JobCounts(c, s, L, i);
      SingleCounts(c, s, L, a, k, x, i);
    } else {
      OthersSameCounts(c, s, k, x, i);
      OthersSamePlace(c, s, L, a, k, x, i);
      assert JobCounts(c, s, L, i);
    }
  }

  // ---- Batches ----

  lemma DispatchCounts(c: Config, s: Store, L: Ledger, js: seq<JobId>, i: JobId)
    requires AllCount(c, s, L) && BatchIn(L, js, Delayed) && i in LedgerMove(L, js)
    ensures JobCounts(c, s.Move(js), LedgerMove(L, js), i)
  {
    PipelineResults.MoveFrame(s, js);
    LedgerMoveAt(L, js, i);
    assert JobCounts(c, s, L, i);
  }

  /** Recovery decides by what each entry said before the batch. */
  lemma {:induction false} RecoverFate(q: Queues, js: seq<JobId>, now: nat, maxRetry: nat, L: Ledger, j: JobId)
    requires NoDup(js) && j in js && forall n :: 0 <= n < |js| ==> js[n] in L
    ensures var L' := LedgerRecover(q, js, now, maxRetry, L); j in L' && L'[j] == Fate(q, j, maxRetry)
  {
    var init, last := js[..|js| - 1], js[|js| - 1];
    assert js == init + [last] && last !in init;
    if j == last {
      RecoverFrame(q, init, now, maxRetry, j);
    } else {
      RecoverFate(q, init, now, maxRetry, L, j);
    }
  }

  lemma RecoverCounts(c: Config, s: Store, L: Ledger, js: seq<JobId>, s': Store, L': Ledger, i: JobId)
    requires AllCount(c, s, L) && BatchIn(L, js, Flying) && NoDup(js) && i in L' && SetHolds(s'.q.meta.Keys, L', Flying)
    requires s'.q == s.q.Recover(js, s.now, c.orphanMaxRetry) && s'.runs == s.runs
    requires L' == LedgerRecover(s.q, js, s.now, c.orphanMaxRetry, L)
    ensures JobCounts(c, s', L', i)
  {
    LedgerRecoverAt(s.q, js, s.now, c.orphanMaxRetry, L, i);
    assert JobCounts(c, s, L, i);
    RecoverFrame(s.q, js, s.now, c.orphanMaxRetry, i);
    PipelineResults.RecoverGroups(s.q, js, s.now, c.orphanMaxRetry);
    if i in js {
      assert L[i] == Flying;
      RecoverFate(s.q, js, s.now, c.orphanMaxRetry, L, i);
    } else if L[i] == Flying {
      assert i in s'.q.meta.Keys;
    }
  }

  lemma ActionAllCount(c: Config, s: Store, L: Ledger, a: ActorId, k: Ctl, x: Action, s': Store, L': Ledger, i: JobId)
    requires Guard(c, s, k, x) && s' == Effect(c, s, k, x) && L' == Moved(c, s, a, k, x, L)
    requires Seated(s, L, a, k, x) && SetHolds(s'.q.meta.Keys, L', Flying)
    requires AllCount(c, s, L) && HandCounts(s, k) && SparingAction(c, s, k, x) && i in L'
    ensures JobCounts(c, s', L', i)
  {
    if x.Dispatch? {
      DispatchCounts(c, s, L, x.js, i);
    } else if x.Recover? {
      RecoverCounts(c, s, L, x.js, s', L', i);
    } else {
      SingleAllCount(c, s, L, a, k, x, i);
    }
  }

  /** A job that is neither in the acting actor's care nor taken by its batch. */
  predicate Elsewhere(L: Ledger, a: ActorId, k: Ctl, x: Action, j: JobId) {
    && j in L && (L[j] == Flying || (L[j].Held? && L[j] != Held(a)))
    && j !in Taken(x) && Executing(k) != Some(j)
  }

  lemma ElsewhereSame(c: Config, s: Store, L: Ledger, a: ActorId, k: Ctl, x: Action, j: JobId)
    requires Seated(s, L, a, k, x) && Guard(c, s, k, x) && Elsewhere(L, a, k, x, j)
    ensures var s' := Effect(c, s, k, x); Retries(s', j) == Retries(s, j) && Runs(s', j) == Runs(s, j)
  {
    if x.Dispatch? {
      PipelineResults.MoveFrame(s, x.js);
    } else if x.Recover? {
      RecoverFrame(s.q, x.js, s.now, c.orphanMaxRetry, j);
    } else {
      OthersSameCounts(c, s, k, x, j);
    }
  }

  // ---- All actors together ----

  /** Only submitted jobs have run. */
  ghost predicate RunsOfJobs(s: Store, L: Ledger) {
    forall j :: j !in L ==> Runs(s, j) == 0
  }

  ghost predicate Counted(c: Config, s: State, L: Ledger) {
    AllCount(c, s.store, L) && RunsOfJobs(s.store, L) && AllHandsCount(s)
  }

  ghost predicate AllHandsCount(s: State) {
    forall a :: HandCounts(s.store, s.At(a))
  }

  lemma ActionRuns(c: Config, s: Store, L: Ledger, a: ActorId, k: Ctl, x: Action, i: JobId)
    requires Guard(c, s, k, x) && Seated(s, L, a, k, x) && i !in L
    ensures Runs(Effect(c, s, k, x), i) == Runs(s, i) && (i in Moved(c, s, a, k, x, L) ==> i in L)
  {
    if x.Dispatch? {
      PipelineResults.MoveFrame(s, x.js);
      LedgerMoveAt(L, x.js, i);
    } else if x.Recover? {
      LedgerRecoverAt(s.q, x.js, s.now, c.orphanMaxRetry, L, i);
    } else {
      OthersSameCounts(c, s, k, x, i);
      OthersSamePlace(c, s, L, a, k, x, i);
    }
  }

  lemma ActionKeepsJobs(c: Config, s: Store, L: Ledger, a: ActorId, k: Ctl, x: Action, i: JobId)
    requires Guard(c, s, k, x) && Seated(s, L, a, k, x) && i in L
    ensures i in Moved(c, s, a, k, x, L)
  {
    if x.Dispatch? {
      LedgerMoveAt(L, x.js, i);
    } else if x.Recover? {
      LedgerRecoverAt(s.q, x.js, s.now, c.orphanMaxRetry, L, i);
    }
  }

  lemma OthersElsewhere(c: Config, s: State, L: Ledger, a: ActorId, x: Action, b: ActorId)
    requires InTime(c) || !x.Recover?
    requires Hands(s, L) && Workers(c, s, L) && Enabled(c, s, By(a, x)) && a != b
    ensures Hand(s.At(b)).Some? && !x.Recover? ==> Elsewhere(L, a, s.At(a), x, s.At(b).job)
    ensures Hand(s.At(b)).Some? && x.Recover? && BatchIn(L, x.js, Flying) ==> Elsewhere(L, a, s.At(a), x, s.At(b).job)
    ensures Executing(s.At(b)).Some? ==> Elsewhere(L, a, s.At(a), x, s.At(b).job)
  {
    assert OwnHand(L, b, s.At(b)) && OwnRun(c, s.store, L, s.At(b)) && OwnRun(c, s.store, L, s.At(a));
    OverdueUnattended(c, s, L, x, b);
  }

  lemma OthersHandCounts(s: Store, L: Ledger, a: ActorId, k: Ctl, x: Action, s': Store, k2: Ctl)
    requires Hand(k2).Some? || Executing(k2).Some? ==>
      Elsewhere(L, a, k, x, k2.job) && Retries(s', k2.job) == Retries(s, k2.job) && Runs(s', k2.job) == Runs(s, k2.job)
    requires HandCounts(s, k2)
    ensures HandCounts(s', k2)
  {
  }

  lemma BatchHandCounts(c: Config, s: Store, k: Ctl, x: Action)
    requires Guard(c, s, k, x) && (x.Dispatch? || x.Recover?)
    ensures HandCounts(Effect(c, s, k, x), Control(c, s, k, x))
  {
  }

  lemma OthersCounted(c: Config, s: State, L: Ledger, a: ActorId, x: Action, b: ActorId)
    requires InTime(c) || !x.Recover?
    requires Hands(s, L) && Workers(c, s, L) && Enabled(c, s, By(a, x)) && a != b
    requires Seated(s.store, L, a, s.At(a), x) && HandCounts(s.store, s.At(b))
    ensures HandCounts(Effect(c, s.store, s.At(a), x), s.At(b))
  {
    OthersElsewhere(c, s, L, a, x, b);
    if Hand(s.At(b)).Some? || Executing(s.At(b)).Some? {
      ElsewhereSame(c, s.store, L, a, s.At(a), x, s.At(b).job);
    }
    OthersHandCounts(s.store, L, a, s.At(a), x, Effect(c, s.store, s.At(a), x), s.At(b));
  }

  lemma OwnHandCounts(c: Config, s: Store, L: Ledger, a: ActorId, k: Ctl, x: Action)
    requires Seated(s, L, a, k, x) && Guard(c, s, k, x) && AllCount(c, s, L) && HandCounts(s, k)
    ensures HandCounts(Effect(c, s, k, x), Control(c, s, k, x))
  {
    if x.Dispatch? || x.Recover? {
      BatchHandCounts(c, s, k, x);
    } else {
      SingleHandCounts(c, s, L, a, k, x);
    }
  }

  lemma JobsCounted(c: Config, s: Store, L: Ledger, a: ActorId, k: Ctl, x: Action, t: Store, L': Ledger)
    requires Guard(c, s, k, x) && t == Effect(c, s, k, x) && L' == Moved(c, s, a, k, x, L)
    requires Seated(s, L, a, k, x) && SetHolds(t.q.meta.Keys, L', Flying)
    requires AllCount(c, s, L) && RunsOfJobs(s, L) && HandCounts(s, k) && SparingAction(c, s, k, x)
    ensures AllCount(c, t, L') && RunsOfJobs(t, L')
  {
    forall i | i in L'
      ensures JobCounts(c, t, L', i)
    {
      ActionAllCount(c, s, L, a, k, x, t, L', i);
    }
    forall i | i !in L'
      ensures Runs(t, i) == 0
    {
      if i in L {
        ActionKeepsJobs(c, s, L, a, k, x, i);
      }
      ActionRuns(c, s, L, a, k, x, i);
    }
  }

  lemma HandsCounted(c: Config, s: State, L: Ledger, a: ActorId, x: Action, t: Store, k': Ctl)
    requires (InTime(c) || !x.Recover?) && Enabled(c, s, By(a, x))
    requires t == Effect(c, s.store, s.At(a), x) && k' == Control(c, s.store, s.At(a), x)
    requires Hands(s, L) && Workers(c, s, L) && Counted(c, s, L) && Seated(s.store, L, a, s.At(a), x)
    ensures AllHandsCount(State(t, s.actors[a := k']))
  {
    OwnHandCounts(c, s.store, L, a, s.At(a), x);
    var s' := State(t, s.actors[a := k']);
    forall b: ActorId
      ensures HandCounts(t, s'.At(b))
    {
      if b != a {
        OthersCounted(c, s, L, a, x, b);
      }
    }
  }

  lemma StepCounted(c: Config, s: State, L: Ledger, e: Event)
    requires InTime(c) || !Recovers(e)
    requires Consistent(c, s, L) && Counted(c, s, L) && Enabled(c, s, e) && Punctual(c, s, e) && SparingEvent(c, s, e)
    ensures Counted(c, Next(c, s, e), MovedBy(c, s, e, L))
  {
    if e.By? {
      var k := s.At(e.a);
      StepKeeps(c, s, L, e);
      assert OwnHand(L, e.a, k) && OwnRun(c, s.store, L, k);
      Seating(c, s.store, L, e.a, k, e.x);
      JobsCounted(c, s.store, L, e.a, k, e.x, Effect(c, s.store, k, e.x), Moved(c, s.store, e.a, k, e.x, L));
      HandsCounted(c, s, L, e.a, e.x, Effect(c, s.store, k, e.x), Control(c, s.store, k, e.x));
    } else {
      EnvCounted(c, s, L, e);
    }
  }

  lemma EnvCounted(c: Config, s: State, L: Ledger, e: Event)
    requires L.Keys == s.store.q.groups.Keys && Hands(s, L) && Workers(c, s, L) && Counted(c, s, L)
    requires Enabled(c, s, e) && !e.By?
    ensures Counted(c, Next(c, s, e), MovedBy(c, s, e, L))
  {
    var s', L' := Next(c, s, e), MovedBy(c, s, e, L);
    EnvJobs(c, s, L, e, s'.store, L');
    EnvSame(c, s, L, e, s');
    forall a
      ensures HandCounts(s'.store, s'.At(a))
    {
      assert OwnHand(L, a, s.At(a)) && OwnRun(c, s.store, L, s.At(a)) && HandCounts(s.store, s.At(a));
      EnvHand(s.store, L, a, s.At(a), s'.store);
    }
  }

  /** Outside events leave the counts of known jobs and all actors alone. */
  lemma EnvSame(c: Config, s: State, L: Ledger, e: Event, s': State)
    requires L.Keys == s.store.q.groups.Keys && Enabled(c, s, e) && !e.By? && s' == Next(c, s, e)
    ensures s'.actors == s.actors
    ensures forall j :: j in L ==> Retries(s'.store, j) == Retries(s.store, j) && Runs(s'.store, j) == Runs(s.store, j)
  {
  }

  lemma EnvHand(s: Store, L: Ledger, a: ActorId, k: Ctl, s': Store)
    requires OwnHand(L, a, k) && HandCounts(s, k) && (Executing(k).Some? ==> k.job in L)
    requires forall j :: j in L ==> Retries(s', j) == Retries(s, j) && Runs(s', j) == Runs(s, j)
    ensures HandCounts(s', k)
  {
  }

  lemma EnvJobs(c: Config, s: State, L: Ledger, e: Event, t: Store, L': Ledger)
    requires L.Keys == s.store.q.groups.Keys && AllCount(c, s.store, L) && RunsOfJobs(s.store, L) && Enabled(c, s, e)
    requires !e.By?
    requires t == Next(c, s, e).store && L' == MovedBy(c, s, e, L)
    ensures AllCount(c, t, L') && RunsOfJobs(t, L')
  {
    forall i | i in L'
      ensures JobCounts(c, t, L', i)
    {
      assert i in L ==> JobCounts(c, s.store, L, i);
    }
  }

  /** A punctual run in which what pops store is sparing. */
  ghost predicate SparingRun(c: Config, s: State, es: seq<Event>, s': State)
    decreases |es|
  {
    if es == [] then s == s'
    else
      && Enabled(c, s, es[0]) && Punctual(c, s, es[0]) && SparingEvent(c, s, es[0])
      && SparingRun(c, Next(c, s, es[0]), es[1..], s')
  }

  lemma {:induction false} RunCounted(c: Config, s: State, L: Ledger, es: seq<Event>, s': State) returns (L': Ledger)
    requires InTime(c)
    requires Consistent(c, s, L) && Counted(c, s, L) && SparingRun(c, s, es, s')
    ensures Consistent(c, s', L') && Counted(c, s', L')
    decreases |es|
  {
    L' := L;
    if es != [] {
      StepKeeps(c, s, L, es[0]);
      StepCounted(c, s, L, es[0]);
      L' := RunCounted(c, Next(c, s, es[0]), MovedBy(c, s, es[0], L), es[1..], s');
    }
  }

  lemma RunsBounded(c: Config, now: nat, es: seq<Event>, s: State, j: JobId)
    requires InTime(c)
    requires SparingRun(c, Start(now), es, s)
    ensures Runs(s.store, j) <= MaxRetry(c) + 1
  {
    StartConsistent(c, now);
    var L := RunCounted(c, Start(now), map[], es, s);
    if j in L {
      assert JobCounts(c, s.store, L, j);
    }
  }

  /** Bounded execution: no job is handed to a worker more often than the larger of the worker limit and the orphan
      limit, plus one. */
  lemma ExecutionBound(c: Config, now: nat, es: seq<Event>, s: State, j: JobId)
    requires InTime(c)
    requires SparingRun(c, Start(now), es, s)
    ensures Runs(s.store, j) <= c.workerMaxRetry + 1 || Runs(s.store, j) <= c.orphanMaxRetry + 1
    ensures Runs(s.store, j) <= MaxRetry(c) + 1
  {
    RunsBounded(c, now, es, s, j);
  }
}
