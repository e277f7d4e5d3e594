/** Exactly one place: as long as processors keep to their time limit, every submitted job is in one
    queue, one actor's hand, or one of the final places, at one position. */
module PipelinePlaces {
  import opened Base
  import opened FairQueue
  import opened ReliableQueue
  import opened SortedSet
  import opened Pipeline
  import PipelineResults

  datatype Place =
    | Waiting            // in its group's pending list
    | Held(a: ActorId)   // in the hand of an actor
    | OnReady
    | Delayed            // in the non-ready queue
    | Flying             // in the in-flight set
    | Dead               // in the dead-letter list
    | Finished
    | Rejected
    | Lost

  /** Where each submitted job is. */
  type Ledger = map<JobId, Place>

  function DeadIds(dead: seq<DeadEntry>): (ids: seq<JobId>)
    ensures |ids| == |dead|
    ensures forall i :: 0 <= i < |dead| ==> ids[i] == dead[i].job
  {
    if dead == [] then [] else DeadIds(dead[..|dead| - 1]) + [dead[|dead| - 1].job]
  }

  /** A list holds exactly the jobs the ledger puts at p, each once. */
  ghost predicate ListHolds(ids: seq<JobId>, L: Ledger, p: Place) {
    NoDup(ids) && forall j :: j in ids <==> (j in L && L[j] == p)
  }

  ghost predicate SetHolds(ids: set<JobId>, L: Ledger, p: Place) {
    forall j :: j in ids <==> (j in L && L[j] == p)
  }

  ghost predicate PendingHolds(fair: Fair, groups: map<JobId, GroupId>, L: Ledger) {
    forall g: GroupId ::
      && NoDup(fair.Pending(g))
      && forall j :: j in fair.Pending(g) <==> (j in L && L[j] == Waiting) && GroupIn(groups, j) == g
  }

  /** The store and the ledger agree. */
  ghost predicate Housed(s: Store, L: Ledger) {
    && L.Keys == s.q.groups.Keys
    && PendingHolds(s.fair, s.q.groups, L)
    && ListHolds(s.q.ready, L, OnReady)
    && SetHolds(s.nonReady.Keys, L, Delayed)
    && SetHolds(s.q.deadlines.Keys, L, Flying)
    && SetHolds(s.q.meta.Keys, L, Flying)
    && ListHolds(DeadIds(s.q.dead), L, Dead)
    && SetHolds(s.finished, L, Finished)
    && SetHolds(s.rejected, L, Rejected)
    && SetHolds(s.lost, L, Lost)
  }

  ghost predicate OwnHand(L: Ledger, a: ActorId, k: Ctl) {
    forall j :: Hand(k) == Some(j) <==> (j in L && L[j] == Held(a))
  }

  /** When an executing actor last set its job's deadline: by the pop, or by a heartbeat. */
  function Renewed(k: Ctl): nat
    requires Executing(k).Some?
  {
    if k.Running? then k.renewed else k.since
  }

  /** When an executing actor must have sent its next heartbeat or settled its job. No heartbeat falls due once
      the job timeout is over. */
  function Limit(c: Config, k: Ctl): nat
    requires Executing(k).Some?
  {
    var settled := k.since + c.jobTimeoutMs + c.settleMs;
    if Renewed(k) + BeatMs(c) < k.since + c.jobTimeoutMs then Min(settled, Renewed(k) + BeatMs(c) + c.beatDelayMs)
    else settled
  }

  /** An executing actor is within its limit, and beats no faster than its timer. */
  ghost predicate Timely(c: Config, now: nat, k: Ctl) {
    Executing(k).Some? ==>
      && k.since <= Renewed(k) <= now <= Limit(c, k)
      && (Renewed(k) == k.since || k.since + BeatMs(c) <= Renewed(k))
  }

  /** The last heartbeat an execution of full length is sure of, as a time since the pop; 0 if it is sure of none. */
  function LastBeat(c: Config): nat {
    if BeatMs(c) < c.jobTimeoutMs then Max(BeatMs(c), c.jobTimeoutMs - BeatMs(c)) else 0
  }

  /** The time limits keep every deadline ahead of its worker: without heartbeats, or with them. */
  predicate InTime(c: Config) {
    || c.jobTimeoutMs + c.settleMs < c.ackTimeoutMs
    || (BeatMs(c) < c.jobTimeoutMs && BeatMs(c) + c.beatDelayMs < c.ackTimeoutMs
        && c.jobTimeoutMs + c.settleMs < LastBeat(c) + c.ackTimeoutMs)
  }

  lemma LimitBeforeDeadline(c: Config, now: nat, k: Ctl)
    requires InTime(c) && Executing(k).Some? && Timely(c, now, k)
    ensures now < Renewed(k) + c.ackTimeoutMs
  {
  }

  /** What an executing actor runs is in flight, for one ack timeout after the deadline was last set. */
  ghost predicate OwnRun(c: Config, s: Store, L: Ledger, k: Ctl) {
    Executing(k).Some? ==>
      && (k.job in L && L[k.job] == Flying)
      && k.job in s.q.deadlines && Renewed(k) + c.ackTimeoutMs <= s.q.deadlines[k.job]
  }

  function LedgerMove(L: Ledger, js: seq<JobId>): Ledger {
    if js == [] then L else LedgerMove(L, js[..|js| - 1])[js[|js| - 1] := OnReady]
  }

  function LedgerRecover(q: Queues, js: seq<JobId>, now: nat, maxRetry: nat, L: Ledger): Ledger {
    if js == [] then L else
    var init, j := js[..|js| - 1], js[|js| - 1];
    LedgerRecover(q, init, now, maxRetry, L)[
      j := Fate(q.Recover(init, now, maxRetry), j, maxRetry)]
  }

  /** Where action x by actor a takes a job. */
  ghost function Moved(c: Config, s: Store, a: ActorId, k: Ctl, x: Action, L: Ledger): Ledger
    requires Guard(c, s, k, x)
  {
    match x
    case Fetch(l, g) => L[s.fair.Pending(g)[0] := Held(a)]
    case CheckRoom => if HasRoom(c, s) then L else L[k.job := Rejected]
    case Push => L[k.job := if HasRoom(c, s) then OnReady else Rejected]
    case Delay(_) => L[k.job := Delayed]
    case DelayFixed => L[k.job := Delayed]
    case Dispatch(js) => LedgerMove(L, js)
    case Pop => if s.q.ready == [] then L else L[s.q.ready[0] := Flying]
    case Settle(_, _) => L[k.job := Held(a)]
    case Acknowledge => if k.Recorded? then L[k.job := Finished] else L
    case Bury => L[k.job := Dead]
    case Recover(js) => LedgerRecover(s.q, js, s.now, c.orphanMaxRetry, L)
    case Crash => if Hand(k).Some? then L[Hand(k).value := Lost] else L
    case _ => L
  }

  /** What an action must show beside housing: own hand and own run stay in agreement with the ledger,
      other actors keep their hands, and jobs in flight stay there unless settled or recovered. */
  ghost predicate Undisturbed(c: Config, s: Store, L: Ledger, a: ActorId, k: Ctl, taken: seq<JobId>, s': Store,
                              L': Ledger, k': Ctl) {
    && OwnHand(L', a, k') && OwnRun(c, s', L', k') && Timely(c, s'.now, k')
    && (forall b, j :: b != a ==> ((j in L' && L'[j] == Held(b)) <==> (j in L && L[j] == Held(b))))
    && (forall j :: j in L && L[j] == Flying && j !in taken && Executing(k) != Some(j) ==>
         && j in L' && L'[j] == Flying
         && j in s.q.deadlines && j in s'.q.deadlines && s.q.deadlines[j] <= s'.q.deadlines[j])
    && (Executing(k').Some? ==> Executing(k') == Executing(k) || (k'.job in L && L[k'.job] == OnReady))
  }

  ghost predicate Good(c: Config, s: Store, L: Ledger, a: ActorId, k: Ctl, taken: seq<JobId>, s': Store, L': Ledger,
                       k': Ctl) {
    Housed(s', L') && Undisturbed(c, s, L, a, k, taken, s', L', k')
  }

  ghost predicate Ready(c: Config, s: Store, L: Ledger, a: ActorId, k: Ctl) {
    Housed(s, L) && OwnHand(L, a, k) && OwnRun(c, s, L, k) && Timely(c, s.now, k)
  }

  // ---- One job moves ----

  ghost predicate ListStep(ids: seq<JobId>, ids': seq<JobId>, j: JobId, leaves: bool, enters: bool) {
    if enters then ids' == ids + [j]
    else if leaves then ids != [] && ids[0] == j && ids' == ids[1..]
    else ids' == ids
  }

  ghost predicate SetStep(ids: set<JobId>, ids': set<JobId>, j: JobId, leaves: bool, enters: bool) {
    ids' == if enters then ids + {j} else if leaves then ids - {j} else ids
  }

  ghost predicate PendingStep(s: Store, s': Store, j: JobId, leaves: bool, enters: bool) {
    && !enters
    && forall g: GroupId ::
         if leaves && s.q.GroupOf(j) == g then ListStep(s.fair.Pending(g), s'.fair.Pending(g), j, true, false)
         else s'.fair.Pending(g) == s.fair.Pending(g)
  }

  /** Job j leaves the store's part for place `from` and enters that for place `to`; all else stays. */
  ghost predicate StoreStep(s: Store, s': Store, j: JobId, from: Place, to: Place) {
    && s'.q.groups == s.q.groups
    && PendingStep(s, s', j, from == Waiting, to == Waiting)
    && ListStep(s.q.ready, s'.q.ready, j, from == OnReady, to == OnReady)
    && SetStep(s.nonReady.Keys, s'.nonReady.Keys, j, from == Delayed, to == Delayed)
    && SetStep(s.q.deadlines.Keys, s'.q.deadlines.Keys, j, from == Flying, to == Flying)
    && SetStep(s.q.meta.Keys, s'.q.meta.Keys, j, from == Flying, to == Flying)
    && ListStep(DeadIds(s.q.dead), DeadIds(s'.q.dead), j, from == Dead, to == Dead)
    && SetStep(s.finished, s'.finished, j, from == Finished, to == Finished)
    && SetStep(s.rejected, s'.rejected, j, from == Rejected, to == Rejected)
    && SetStep(s.lost, s'.lost, j, from == Lost, to == Lost)
    && (forall i :: i in s.q.deadlines && i != j ==> i in s'.q.deadlines && s'.q.deadlines[i] == s.q.deadlines[i])
  }

  lemma ListStepHolds(ids: seq<JobId>, ids': seq<JobId>, L: Ledger, p: Place, j: JobId, to: Place)
    requires ListHolds(ids, L, p) && j in L && L[j] != to
    requires ListStep(ids, ids', j, L[j] == p, to == p)
    ensures ListHolds(ids', L[j := to], p)
  {
  }

  lemma SetStepHolds(ids: set<JobId>, ids': set<JobId>, L: Ledger, p: Place, j: JobId, to: Place)
    requires SetHolds(ids, L, p) && j in L && L[j] != to
    requires SetStep(ids, ids', j, L[j] == p, to == p)
    ensures SetHolds(ids', L[j := to], p)
  {
  }

  lemma PendingStepHolds(s: Store, s': Store, L: Ledger, j: JobId, to: Place)
    requires PendingHolds(s.fair, s.q.groups, L) && j in L && L[j] != to
    requires s'.q.groups == s.q.groups && PendingStep(s, s', j, L[j] == Waiting, to == Waiting)
    ensures PendingHolds(s'.fair, s'.q.groups, L[j := to])
  {
  }

  lemma StoreStepHolds(s: Store, s': Store, L: Ledger, j: JobId, to: Place)
    requires Housed(s, L) && j in L && L[j] != to && StoreStep(s, s', j, L[j], to)
    ensures Housed(s', L[j := to])
  {
    PendingStepHolds(s, s', L, j, to);
    ListStepHolds(s.q.ready, s'.q.ready, L, OnReady, j, to);
    ListStepHolds(DeadIds(s.q.dead), DeadIds(s'.q.dead), L, Dead, j, to);
    SetStepHolds(s.nonReady.Keys, s'.nonReady.Keys, L, Delayed, j, to);
    SetStepHolds(s.q.deadlines.Keys, s'.q.deadlines.Keys, L, Flying, j, to);
    SetStepHolds(s.q.meta.Keys, s'.q.meta.Keys, L, Flying, j, to);
    SetStepHolds(s.finished, s'.finished, L, Finished, j, to);
    SetStepHolds(s.rejected, s'.rejected, L, Rejected, j, to);
    SetStepHolds(s.lost, s'.lost, L, Lost, j, to);
  }

  /** The acting actor's care changes hands as the job does. */
  ghost predicate CareStep(c: Config, s': Store, a: ActorId, k: Ctl, k': Ctl, j: JobId, from: Place, to: Place) {
    && (from.Held? ==> from == Held(a)) && (to.Held? ==> to == Held(a))
    && Hand(k) == (if from == Held(a) then Some(j) else None)
    && Hand(k') == (if to == Held(a) then Some(j) else None)
    && (from == Flying ==> Executing(k) == Some(j))
    && (Executing(k').Some? ==>
         && from == OnReady && to == Flying && k'.job == j
         && j in s'.q.deadlines && k'.since == Renewed(k') == s'.now && s'.now + c.ackTimeoutMs <= s'.q.deadlines[j])
  }

  lemma MoveOwn(c: Config, L: Ledger, a: ActorId, k: Ctl, s': Store, k': Ctl, j: JobId, to: Place)
    requires OwnHand(L, a, k) && j in L && L[j] != to && CareStep(c, s', a, k, k', j, L[j], to)
    ensures OwnHand(L[j := to], a, k') && OwnRun(c, s', L[j := to], k') && Timely(c, s'.now, k')
  {
  }

  lemma MoveUndisturbed(c: Config, s: Store, L: Ledger, a: ActorId, k: Ctl, s': Store, k': Ctl, j: JobId, to: Place)
    requires OwnHand(L, a, k) && SetHolds(s.q.deadlines.Keys, L, Flying)
    requires j in L && L[j] != to && CareStep(c, s', a, k, k', j, L[j], to)
    requires forall i :: i in s.q.deadlines && i != j ==> i in s'.q.deadlines && s'.q.deadlines[i] == s.q.deadlines[i]
    ensures Undisturbed(c, s, L, a, k, [], s', L[j := to], k')
  {
    MoveOwn(c, L, a, k, s', k', j, to);
  }

  /** A job that moves into or out of the acting actor's care leaves everybody else undisturbed. */
  lemma MoveGood(c: Config, s: Store, L: Ledger, a: ActorId, k: Ctl, s': Store, k': Ctl, j: JobId, to: Place)
    requires Ready(c, s, L, a, k) && j in L && L[j] != to
    requires StoreStep(s, s', j, L[j], to) && CareStep(c, s', a, k, k', j, L[j], to)
    ensures Good(c, s, L, a, k, [], s', L[j := to], k')
  {
    StoreStepHolds(s, s', L, j, to);
    MoveUndisturbed(c, s, L, a, k, s', k', j, to);
  }

  /** s', k' and L' are where action x takes store, actor and ledger. */
  ghost predicate Acts(c: Config, s: Store, L: Ledger, a: ActorId, k: Ctl, x: Action, s': Store, L': Ledger, k': Ctl) {
    Guard(c, s, k, x) && s' == Effect(c, s, k, x) && k' == Control(c, s, k, x) && L' == Moved(c, s, a, k, x, L)
  }

  lemma FetchStore(c: Config, s: Store, a: ActorId, k: Ctl, x: Action, s': Store)
    requires Guard(c, s, k, x) && x.Fetch? && s' == Effect(c, s, k, x)
    requires s.q.GroupOf(s.fair.Pending(x.g)[0]) == x.g
    ensures StoreStep(s, s', s.fair.Pending(x.g)[0], Waiting, Held(a))
  {
  }

  lemma FetchCare(c: Config, s: Store, L: Ledger, a: ActorId, k: Ctl, x: Action, s': Store)
    requires Guard(c, s, k, x) && x.Fetch?
    ensures CareStep(c, s', a, k, Control(c, s, k, x), s.fair.Pending(x.g)[0], Waiting, Held(a))
    ensures Moved(c, s, a, k, x, L) == L[s.fair.Pending(x.g)[0] := Held(a)]
  {
  }

  lemma FetchGood(c: Config, s: Store, L: Ledger, a: ActorId, k: Ctl, x: Action, s': Store, L': Ledger, k': Ctl)
    requires Ready(c, s, L, a, k) && Acts(c, s, L, a, k, x, s', L', k') && x.Fetch?
    ensures Good(c, s, L, a, k, [], s', L', k')
  {
    var j := s.fair.Pending(x.g)[0];
    assert j in s.fair.Pending(x.g);
    FetchStore(c, s, a, k, x, s');
    FetchCare(c, s, L, a, k, x, s');
    MoveGood(c, s, L, a, k, s', k', j, Held(a));
  }

  lemma InHand(L: Ledger, a: ActorId, k: Ctl)
    requires OwnHand(L, a, k) && Hand(k).Some?
    ensures Hand(k).value in L && L[Hand(k).value] == Held(a)
  {
  }

  lemma AppendDead(dead: seq<DeadEntry>, e: DeadEntry)
    ensures DeadIds(dead + [e]) == DeadIds(dead) + [e.job]
  {
  }

  /** Where an actor's job goes when an action takes it out of the actor's hand. */
  function Leaves(c: Config, s: Store, k: Ctl, x: Action): Option<Place> {
    match x
    case Push => Some(if HasRoom(c, s) then OnReady else Rejected)
    case CheckRoom => if HasRoom(c, s) then None else Some(Rejected)
    case Delay(_) => Some(Delayed)
    case DelayFixed => Some(Delayed)
    case Acknowledge => if k.Recorded? then Some(Finished) else None
    case Bury => Some(Dead)
    case Crash => if Hand(k).Some? then Some(Lost) else None
    case _ => None
  }

  lemma LeaveStoreSupply(c: Config, s: Store, a: ActorId, k: Ctl, x: Action)
    requires Guard(c, s, k, x) && Leaves(c, s, k, x).Some?
    requires Supplies(x)
    ensures Hand(k).Some?
    ensures StoreStep(s, Effect(c, s, k, x), Hand(k).value, Held(a), Leaves(c, s, k, x).value)
  {
    match x
    case Push =>
    case CheckRoom =>
    case Delay(_) =>
    case DelayFixed =>
    case _ =>
  }

  lemma BuryStore(c: Config, s: Store, a: ActorId, k: Ctl)
    requires Guard(c, s, k, Bury)
    ensures StoreStep(s, Effect(c, s, k, Bury), k.job, Held(a), Dead)
  {
    AppendDead(s.q.dead, DeadEntry(k.job, s.q.GroupOf(k.job), k.retry, s.now));
  }

  lemma LeaveStoreWork(c: Config, s: Store, a: ActorId, k: Ctl, x: Action)
    requires Guard(c, s, k, x) && Leaves(c, s, k, x).Some?
    requires !Supplies(x) && !x.Bury?
    ensures Hand(k).Some?
    ensures StoreStep(s, Effect(c, s, k, x), Hand(k).value, Held(a), Leaves(c, s, k, x).value)
  {
    match x
    case Acknowledge =>
    case Crash =>
    case _ =>
  }

  lemma LeaveStore(c: Config, s: Store, a: ActorId, k: Ctl, x: Action)
    requires Guard(c, s, k, x) && Leaves(c, s, k, x).Some?
    ensures Hand(k).Some?
    ensures StoreStep(s, Effect(c, s, k, x), Hand(k).value, Held(a), Leaves(c, s, k, x).value)
  {
    if Supplies(x) {
      LeaveStoreSupply(c, s, a, k, x);
    } else if x.Bury? {
      BuryStore(c, s, a, k);
    } else {
      LeaveStoreWork(c, s, a, k, x);
    }
  }

  lemma LeaveCare(c: Config, s: Store, L: Ledger, a: ActorId, k: Ctl, x: Action, s': Store)
    requires Guard(c, s, k, x) && Leaves(c, s, k, x).Some?
    ensures Hand(k).Some? && Moved(c, s, a, k, x, L) == L[Hand(k).value := Leaves(c, s, k, x).value]
    ensures CareStep(c, s', a, k, Control(c, s, k, x), Hand(k).value, Held(a), Leaves(c, s, k, x).value)
  {
  }

  lemma LeaveGood(c: Config, s: Store, L: Ledger, a: ActorId, k: Ctl, x: Action, s': Store, L': Ledger, k': Ctl)
    requires Ready(c, s, L, a, k) && Acts(c, s, L, a, k, x, s', L', k') && Leaves(c, s, k, x).Some?
    ensures Good(c, s, L, a, k, [], s', L', k')
  {
    LeaveStore(c, s, a, k, x);
    LeaveCare(c, s, L, a, k, x, s');
    InHand(L, a, k);
    MoveGood(c, s, L, a, k, s', k', Hand(k).value, Leaves(c, s, k, x).value);
  }

  lemma PopStore(c: Config, s: Store, k: Ctl, s': Store)
    requires Guard(c, s, k, Pop) && s.q.ready != [] && s' == Effect(c, s, k, Pop)
    ensures StoreStep(s, s', s.q.ready[0], OnReady, Flying)
  {
  }

  lemma PopCare(c: Config, s: Store, L: Ledger, a: ActorId, k: Ctl, s': Store)
    requires Guard(c, s, k, Pop) && s.q.ready != [] && s' == Effect(c, s, k, Pop)
    ensures CareStep(c, s', a, k, Control(c, s, k, Pop), s.q.ready[0], OnReady, Flying)
    ensures Moved(c, s, a, k, Pop, L) == L[s.q.ready[0] := Flying]
  {
  }

  lemma PopGood(c: Config, s: Store, L: Ledger, a: ActorId, k: Ctl, x: Action, s': Store, L': Ledger, k': Ctl)
    requires Ready(c, s, L, a, k) && Acts(c, s, L, a, k, x, s', L', k') && x.Pop? && s.q.ready != []
    ensures Good(c, s, L, a, k, [], s', L', k')
  {
    PopStore(c, s, k, s');
    PopCare(c, s, L, a, k, s');
    var j := s.q.ready[0];
    assert j in s.q.ready;
    MoveGood(c, s, L, a, k, s', k', j, Flying);
  }

  lemma SettleStore(c: Config, s: Store, a: ActorId, k: Ctl, x: Action, s': Store)
    requires Guard(c, s, k, x) && x.Settle? && s' == Effect(c, s, k, x)
    ensures StoreStep(s, s', k.job, Flying, Held(a))
  {
  }

  lemma SettleCare(c: Config, s: Store, L: Ledger, a: ActorId, k: Ctl, x: Action, s': Store)
    requires Guard(c, s, k, x) && x.Settle?
    ensures CareStep(c, s', a, k, Control(c, s, k, x), k.job, Flying, Held(a))
    ensures Moved(c, s, a, k, x, L) == L[k.job := Held(a)] && Executing(k) == Some(k.job)
  {
  }

  lemma SettleGood(c: Config, s: Store, L: Ledger, a: ActorId, k: Ctl, x: Action, s': Store, L': Ledger, k': Ctl)
    requires Ready(c, s, L, a, k) && Acts(c, s, L, a, k, x, s', L', k') && x.Settle?
    ensures Good(c, s, L, a, k, [], s', L', k')
  {
    SettleStore(c, s, a, k, x, s');
    SettleCare(c, s, L, a, k, x, s');
    MoveGood(c, s, L, a, k, s', k', k.job, Held(a));
  }

  // ---- No job moves ----

  ghost predicate StoreSame(s: Store, s': Store) {
    && s'.q.groups == s.q.groups && s'.fair.lists == s.fair.lists
    && s'.q.ready == s.q.ready && s'.q.dead == s.q.dead && s'.nonReady.Keys == s.nonReady.Keys
    && s'.q.deadlines.Keys == s.q.deadlines.Keys && s'.q.meta.Keys == s.q.meta.Keys
    && s'.finished == s.finished && s'.rejected == s.rejected && s'.lost == s.lost && s'.now == s.now
  }

  /** The actor goes on with, or drops, what it was executing. */
  ghost predicate CareSame(c: Config, s: Store, k: Ctl, s': Store, k': Ctl) {
    && Hand(k') == Hand(k)
    && (forall i :: i in s.q.deadlines && i in s'.q.deadlines && Executing(k) != Some(i) ==>
         s.q.deadlines[i] <= s'.q.deadlines[i])
    && Timely(c, s'.now, k')
    && (Executing(k').Some? ==>
         && Executing(k') == Executing(k)
         && (k.job in s.q.deadlines && k.job in s'.q.deadlines
             && Renewed(k) + c.ackTimeoutMs <= s.q.deadlines[k.job] ==>
              Renewed(k') + c.ackTimeoutMs <= s'.q.deadlines[k.job]))
  }

  lemma StayHoused(s: Store, s': Store, L: Ledger)
    requires Housed(s, L) && StoreSame(s, s')
    ensures Housed(s', L)
  {
    assert forall g: GroupId :: s'.fair.Pending(g) == s.fair.Pending(g);
  }

  lemma StayGood(c: Config, s: Store, L: Ledger, a: ActorId, k: Ctl, s': Store, k': Ctl)
    requires Ready(c, s, L, a, k) && StoreSame(s, s') && CareSame(c, s, k, s', k')
    ensures Good(c, s, L, a, k, [], s', L, k')
  {
    StayHoused(s, s', L);
  }

  predicate Stays(c: Config, s: Store, k: Ctl, x: Action) {
    !x.Fetch? && !x.Dispatch? && !x.Discard? && !x.Settle? && !x.Recover? && !(x.Pop? && s.q.ready != [])
      && Leaves(c, s, k, x).None?
  }

  lemma StayStore(c: Config, s: Store, L: Ledger, a: ActorId, k: Ctl, x: Action)
    requires Guard(c, s, k, x) && Stays(c, s, k, x)
    ensures StoreSame(s, Effect(c, s, k, x)) && Moved(c, s, a, k, x, L) == L
  {
    match x
    case Poll =>
    case CheckRoom =>
    case CheckRate(_) =>
    case DispatchCheck =>
    case CheckReady =>
    case Peek =>
    case ReadMeta =>
    case Pop =>
    case Load =>
    case Heartbeat =>
    case Record =>
    case Acknowledge =>
    case ResetStats =>
    case CountRetry =>
    case Crash =>
    case _ =>
  }

  lemma StayCareSupply(c: Config, s: Store, k: Ctl, x: Action)
    requires Guard(c, s, k, x) && Stays(c, s, k, x)
    requires Timely(c, s.now, k)
    requires Supplies(x)
    ensures CareSame(c, s, k, Effect(c, s, k, x), Control(c, s, k, x))
  {
    match x
    case Poll =>
    case CheckRoom =>
    case CheckRate(_) =>
    case DispatchCheck =>
    case _ =>
  }

  lemma StayCareFlight(c: Config, s: Store, k: Ctl, x: Action)
    requires Guard(c, s, k, x) && Stays(c, s, k, x) && Executes(x)
    requires Timely(c, s.now, k)
    ensures CareSame(c, s, k, Effect(c, s, k, x), Control(c, s, k, x))
  {
    match x
    case CheckReady =>
    case Peek =>
    case ReadMeta =>
    case Pop =>
    case Load =>
    case Heartbeat =>
    case _ =>
  }

  lemma StayCareBooks(c: Config, s: Store, k: Ctl, x: Action)
    requires Guard(c, s, k, x) && Stays(c, s, k, x) && !Supplies(x) && !Executes(x) && Timely(c, s.now, k)
    ensures CareSame(c, s, k, Effect(c, s, k, x), Control(c, s, k, x))
  {
    match x
    case Record =>
    case Acknowledge =>
    case ResetStats =>
    case CountRetry =>
    case Crash =>
    case _ =>
  }

  lemma StayCare(c: Config, s: Store, k: Ctl, x: Action)
    requires Guard(c, s, k, x) && Stays(c, s, k, x)
    requires Timely(c, s.now, k)
    ensures CareSame(c, s, k, Effect(c, s, k, x), Control(c, s, k, x))
  {
    if Supplies(x) {
      StayCareSupply(c, s, k, x);
    } else if Executes(x) {
      StayCareFlight(c, s, k, x);
    } else {
      StayCareBooks(c, s, k, x);
    }
  }

  // ---- A batch of jobs moves ----

  lemma {:induction false} LedgerMoveAt(L: Ledger, js: seq<JobId>, j: JobId)
    requires forall i :: 0 <= i < |js| ==> js[i] in L
    ensures j in LedgerMove(L, js) <==> j in L
    ensures j in L ==> LedgerMove(L, js)[j] == if j in js then OnReady else L[j]
  {
    if js != [] {
      LedgerMoveAt(L, js[..|js| - 1], j);
      assert js == js[..|js| - 1] + [js[|js| - 1]];
    }
  }

  lemma MoveOneStep(s: Store, j: JobId)
    ensures StoreStep(s, s.MoveOne(j), j, Delayed, OnReady)
  {
  }

  lemma {:induction false} DispatchHoused(s: Store, L: Ledger, js: seq<JobId>)
    requires Housed(s, L) && NoDup(js) && forall i :: 0 <= i < |js| ==> js[i] in L && L[js[i]] == Delayed
    ensures Housed(s.Move(js), LedgerMove(L, js))
  {
    if js != [] {
      var init, j := js[..|js| - 1], js[|js| - 1];
      DispatchHoused(s, L, init);
      LedgerMoveAt(L, init, j);
      assert j !in init;
      var m, M := s.Move(init), LedgerMove(L, init);
      MoveOneStep(m, j);
      StoreStepHolds(m, m.MoveOne(j), M, j, OnReady);
    }
  }

  lemma {:induction false} LedgerRecoverAt(q: Queues, js: seq<JobId>, now: nat, maxRetry: nat, L: Ledger, j: JobId)
    requires forall i :: 0 <= i < |js| ==> js[i] in L
    ensures var L' := LedgerRecover(q, js, now, maxRetry, L);
      && (j in L' <==> j in L)
      && (j in L ==> if j in js then L'[j] == Dead || L'[j] == OnReady else L'[j] == L[j])
  {
    if js != [] {
      LedgerRecoverAt(q, js[..|js| - 1], now, maxRetry, L, j);
      assert js == js[..|js| - 1] + [js[|js| - 1]];
    }
  }

  function Fate(q: Queues, j: JobId, maxRetry: nat): Place {
    if q.RecoveryMeta(j).retry >= maxRetry then Dead else OnReady
  }

  lemma RecoverOneStep(s: Store, j: JobId, now: nat, maxRetry: nat)
    ensures StoreStep(s, s.(q := s.q.RecoverOne(j, now, maxRetry)), j, Flying, Fate(s.q, j, maxRetry))
  {
    AppendDead(s.q.dead, DeadEntry(j, s.q.RecoveryMeta(j).group, s.q.RecoveryMeta(j).retry, now));
  }

  lemma {:induction false} RecoverHoused(s: Store, L: Ledger, js: seq<JobId>, now: nat, maxRetry: nat)
    requires Housed(s, L) && NoDup(js) && forall i :: 0 <= i < |js| ==> js[i] in L && L[js[i]] == Flying
    ensures Housed(s.(q := s.q.Recover(js, now, maxRetry)), LedgerRecover(s.q, js, now, maxRetry, L))
  {
    if js != [] {
      var init, j := js[..|js| - 1], js[|js| - 1];
      RecoverHoused(s, L, init, now, maxRetry);
      LedgerRecoverAt(s.q, init, now, maxRetry, L, j);
      assert j !in init;
      var m, M := s.(q := s.q.Recover(init, now, maxRetry)), LedgerRecover(s.q, init, now, maxRetry, L);
      RecoverOneStep(m, j, now, maxRetry);
      StoreStepHolds(m, m.(q := m.q.RecoverOne(j, now, maxRetry)), M, j, Fate(m.q, j, maxRetry));
    } else {
      assert s.(q := s.q) == s;
    }
  }

  lemma {:induction false} RecoverKeepsDeadlines(q: Queues, js: seq<JobId>, now: nat, maxRetry: nat, i: JobId)
    requires i in q.deadlines && i !in js
    ensures var d := q.Recover(js, now, maxRetry).deadlines; i in d && d[i] == q.deadlines[i]
  {
    if js != [] {
      RecoverKeepsDeadlines(q, js[..|js| - 1], now, maxRetry, i);
    }
  }

  /** A batch moves jobs out of `from`, where no actor holds or executes them. */
  ghost predicate BatchStep(L: Ledger, L': Ledger, js: seq<JobId>, from: Place) {
    forall j ::
      && (j in L' <==> j in L)
      && (j in L && j !in js ==> L'[j] == L[j])
      && (j in L && j in js ==> L[j] == from && !L'[j].Held? && L'[j] != Flying)
  }

  lemma BatchUndisturbed(c: Config, s: Store, L: Ledger, a: ActorId, k: Ctl, s': Store, L': Ledger, k': Ctl,
                         js: seq<JobId>, from: Place)
    requires OwnHand(L, a, k) && SetHolds(s.q.deadlines.Keys, L, Flying)
    requires Hand(k).None? && Hand(k').None? && Executing(k').None? && !from.Held?
    requires BatchStep(L, L', js, from)
    requires forall i :: i in s.q.deadlines && i !in js ==> i in s'.q.deadlines && s'.q.deadlines[i] == s.q.deadlines[i]
    ensures Undisturbed(c, s, L, a, k, if from == Flying then js else [], s', L', k')
  {
    forall j | j in L && L[j] == Flying && (from == Flying ==> j !in js)
      ensures j !in js && j in s.q.deadlines
    {
      if j in js && from != Flying {
        assert false;
      }
    }
  }

  lemma DispatchUndisturbed(c: Config, s: Store, L: Ledger, a: ActorId, k: Ctl, js: seq<JobId>, s': Store)
    requires OwnHand(L, a, k) && k.Dispatching? && SetHolds(s.q.deadlines.Keys, L, Flying)
    requires forall i :: 0 <= i < |js| ==> js[i] in L && L[js[i]] == Delayed
    requires s'.q.deadlines == s.q.deadlines
    ensures Undisturbed(c, s, L, a, k, [], s', LedgerMove(L, js), Idle)
  {
    forall j
      ensures j in LedgerMove(L, js) <==> j in L
      ensures j in L ==> LedgerMove(L, js)[j] == if j in js then OnReady else L[j]
    {
      LedgerMoveAt(L, js, j);
    }
    BatchUndisturbed(c, s, L, a, k, s', LedgerMove(L, js), Idle, js, Delayed);
  }

  lemma DispatchGood(c: Config, s: Store, L: Ledger, a: ActorId, k: Ctl, js: seq<JobId>)
    requires Ready(c, s, L, a, k) && Guard(c, s, k, Dispatch(js))
    ensures Good(c, s, L, a, k, [], s.Move(js), LedgerMove(L, js), Idle)
  {
    assert forall i :: 0 <= i < |js| ==> js[i] in s.nonReady.Keys;
    DispatchHoused(s, L, js);
    PipelineResults.MoveFrame(s, js);
    DispatchUndisturbed(c, s, L, a, k, js, s.Move(js));
  }

  lemma RecoverUndisturbed(c: Config, s: Store, L: Ledger, a: ActorId, k: Ctl, js: seq<JobId>, s': Store, k': Ctl)
    requires OwnHand(L, a, k) && k.Idle? && (k'.Idle? || k'.Reporting?) && SetHolds(s.q.deadlines.Keys, L, Flying)
    requires forall i :: 0 <= i < |js| ==> js[i] in L && L[js[i]] == Flying
    requires s'.q == s.q.Recover(js, s.now, c.orphanMaxRetry)
    ensures Undisturbed(c, s, L, a, k, js, s', LedgerRecover(s.q, js, s.now, c.orphanMaxRetry, L), k')
  {
    var L' := LedgerRecover(s.q, js, s.now, c.orphanMaxRetry, L);
    forall j
      ensures j in L' <==> j in L
      ensures j in L ==> if j in js then L'[j] == Dead || L'[j] == OnReady else L'[j] == L[j]
    {
      LedgerRecoverAt(s.q, js, s.now, c.orphanMaxRetry, L, j);
    }
    forall i | i in s.q.deadlines && i !in js
      ensures i in s'.q.deadlines && s'.q.deadlines[i] == s.q.deadlines[i]
    {
      RecoverKeepsDeadlines(s.q, js, s.now, c.orphanMaxRetry, i);
    }
    BatchUndisturbed(c, s, L, a, k, s', L', k', js, Flying);
  }

  lemma RecoverGood(c: Config, s: Store, L: Ledger, a: ActorId, k: Ctl, js: seq<JobId>, s': Store, k': Ctl)
    requires Ready(c, s, L, a, k) && Guard(c, s, k, Recover(js)) && (k'.Idle? || k'.Reporting?)
    requires s' == s.(q := s.q.Recover(js, s.now, c.orphanMaxRetry), recovered := s'.recovered)
    ensures Good(c, s, L, a, k, js, s', LedgerRecover(s.q, js, s.now, c.orphanMaxRetry, L), k')
  {
    assert forall i :: 0 <= i < |js| ==> js[i] in s.q.deadlines.Keys;
    RecoverHoused(s, L, js, s.now, c.orphanMaxRetry);
    StayHoused(s.(q := s.q.Recover(js, s.now, c.orphanMaxRetry)), s',
      LedgerRecover(s.q, js, s.now, c.orphanMaxRetry, L));
    RecoverUndisturbed(c, s, L, a, k, js, s', k');
  }

  function Taken(x: Action): seq<JobId> {
    if x.Recover? then x.js else []
  }

  lemma StaysGood(c: Config, s: Store, L: Ledger, a: ActorId, k: Ctl, x: Action, s': Store, L': Ledger, k': Ctl)
    requires Ready(c, s, L, a, k) && Acts(c, s, L, a, k, x, s', L', k') && Stays(c, s, k, x)
    ensures Good(c, s, L, a, k, [], s', L', k')
  {
    StayStore(c, s, L, a, k, x);
    StayCare(c, s, k, x);
    StayGood(c, s, L, a, k, s', k');
  }

  lemma MovesGood(c: Config, s: Store, L: Ledger, a: ActorId, k: Ctl, x: Action, s': Store, L': Ledger, k': Ctl)
    requires Ready(c, s, L, a, k) && Acts(c, s, L, a, k, x, s', L', k')
    requires Leaves(c, s, k, x).None? && !Stays(c, s, k, x)
    ensures Good(c, s, L, a, k, Taken(x), s', L', k')
  {
    match x
    case Fetch(_, _) => FetchGood(c, s, L, a, k, x, s', L', k');
    case Dispatch(js) => DispatchGood(c, s, L, a, k, js);
    case Pop => PopGood(c, s, L, a, k, x, s', L', k');
    case Settle(_, _) => SettleGood(c, s, L, a, k, x, s', L', k');
    case Recover(js) => RecoverGood(c, s, L, a, k, js, s', k');
    case _ => assert false;
  }

  lemma ActionGood(c: Config, s: Store, L: Ledger, a: ActorId, k: Ctl, x: Action, s': Store, L': Ledger, k': Ctl)
    requires Ready(c, s, L, a, k) && Acts(c, s, L, a, k, x, s', L', k')
    ensures Good(c, s, L, a, k, Taken(x), s', L', k')
  {
    if Leaves(c, s, k, x).Some? {
      LeaveGood(c, s, L, a, k, x, s', L', k');
    } else if Stays(c, s, k, x) {
      StaysGood(c, s, L, a, k, x, s', L', k');
    } else {
      MovesGood(c, s, L, a, k, x, s', L', k');
    }
  }

  // ---- All actors together ----

  ghost predicate Hands(s: State, L: Ledger) {
    forall a :: OwnHand(L, a, s.At(a))
  }

  /** Executing actors run different jobs, all in flight, and none has exceeded its time. */
  ghost predicate Workers(c: Config, s: State, L: Ledger) {
    && (forall a :: OwnRun(c, s.store, L, s.At(a)) && Timely(c, s.store.now, s.At(a)))
    && (forall a, b :: a != b && Executing(s.At(a)).Some? ==> Executing(s.At(b)) != Executing(s.At(a)))
  }

  ghost predicate Consistent(c: Config, s: State, L: Ledger) {
    Housed(s.store, L) && Hands(s, L) && Workers(c, s, L)
  }

  /** Time does not pass the moment by which an executing worker has sent its next heartbeat or settled its job. */
  ghost predicate Punctual(c: Config, s: State, e: Event) {
    e.Tick? ==> forall a :: Executing(s.At(a)).Some? ==> s.store.now + e.d <= Limit(c, s.At(a))
  }

  /** No entry that recovery may take is being executed. */
  lemma OverdueUnattended(c: Config, s: State, L: Ledger, x: Action, b: ActorId)
    requires InTime(c) || !x.Recover?
    requires Workers(c, s, L) && (x.Recover? ==> forall i :: 0 <= i < |x.js| ==>
      x.js[i] in s.store.q.deadlines && s.store.q.deadlines[x.js[i]] <= s.store.now)
    ensures Executing(s.At(b)).Some? ==> s.At(b).job !in Taken(x)
  {
    if x.Recover? && Executing(s.At(b)).Some? {
      assert OwnRun(c, s.store, L, s.At(b));
      LimitBeforeDeadline(c, s.store.now, s.At(b));
    }
  }

  lemma HandsKept(c: Config, s: State, L: Ledger, a: ActorId, taken: seq<JobId>, t: Store, L': Ledger, k': Ctl)
    requires Hands(s, L) && Undisturbed(c, s.store, L, a, s.At(a), taken, t, L', k')
    ensures Hands(State(t, s.actors[a := k']), L')
  {
    var s' := State(t, s.actors[a := k']);
    forall b
      ensures OwnHand(L', b, s'.At(b))
    {
      assert OwnHand(L, b, s.At(b));
    }
  }

  lemma WorkersKept(c: Config, s: State, L: Ledger, a: ActorId, taken: seq<JobId>, t: Store, L': Ledger, k': Ctl)
    requires Workers(c, s, L) && Undisturbed(c, s.store, L, a, s.At(a), taken, t, L', k') && t.now == s.store.now
    requires forall b :: Executing(s.At(b)).Some? ==> s.At(b).job !in taken
    ensures Workers(c, State(t, s.actors[a := k']), L')
  {
    var s' := State(t, s.actors[a := k']);
    forall b
      ensures OwnRun(c, t, L', s'.At(b)) && Timely(c, t.now, s'.At(b))
    {
      assert OwnRun(c, s.store, L, s.At(b));
    }
    forall b | b != a && Executing(s.At(b)).Some?
      ensures Executing(k') != Executing(s.At(b))
    {
      assert OwnRun(c, s.store, L, s.At(b));
    }
    forall x, y | x != y && Executing(s'.At(x)).Some?
      ensures Executing(s'.At(y)) != Executing(s'.At(x))
    {
      assert s'.At(x) == if x == a then k' else s.At(x);
      assert s'.At(y) == if y == a then k' else s.At(y);
    }
  }

  lemma ActionKeepsClock(c: Config, s: Store, k: Ctl, x: Action)
    requires Guard(c, s, k, x)
    ensures Effect(c, s, k, x).now == s.now
  {
    if x.Dispatch? {
      PipelineResults.MoveFrame(s, x.js);
    }
  }

  lemma ByKeeps(c: Config, s: State, L: Ledger, a: ActorId, x: Action) returns (L': Ledger)
    requires InTime(c) || !x.Recover?
    requires Consistent(c, s, L) && Enabled(c, s, By(a, x))
    ensures L' == Moved(c, s.store, a, s.At(a), x, L)
    ensures Consistent(c, Next(c, s, By(a, x)), L')
  {
    var t, k' := Effect(c, s.store, s.At(a), x), Control(c, s.store, s.At(a), x);
    L' := Moved(c, s.store, a, s.At(a), x, L);
    assert OwnHand(L, a, s.At(a)) && OwnRun(c, s.store, L, s.At(a)) && Timely(c, s.store.now, s.At(a));
    ActionGood(c, s.store, L, a, s.At(a), x, t, L', k');
    ActionKeepsClock(c, s.store, s.At(a), x);
    forall b | Executing(s.At(b)).Some?
      ensures s.At(b).job !in Taken(x)
    {
      OverdueUnattended(c, s, L, x, b);
    }
    HandsKept(c, s, L, a, Taken(x), t, L', k');
    WorkersKept(c, s, L, a, Taken(x), t, L', k');
  }

  /** Where an event takes the jobs. */
  ghost function MovedBy(c: Config, s: State, e: Event, L: Ledger): Ledger
    requires Enabled(c, s, e)
  {
    match e
    case Submit(_, j, _, _) => L[j := Waiting]
    case By(a, x) => Moved(c, s.store, a, s.At(a), x, L)
    case _ => L
  }

  lemma SubmitPending(fair: Fair, fair': Fair, groups: map<JobId, GroupId>, L: Ledger, j: JobId, g: GroupId)
    requires PendingHolds(fair, groups, L) && j !in L
    requires fair'.lists == fair.lists[g := fair.Pending(g) + [j]]
    ensures PendingHolds(fair', groups[j := g], L[j := Waiting])
  {
    forall h: GroupId
      ensures NoDup(fair'.Pending(h))
      ensures var M := L[j := Waiting];
        forall i :: i in fair'.Pending(h) <==> (i in M && M[i] == Waiting) && GroupIn(groups[j := g], i) == h
    {
      assert NoDup(fair.Pending(h)) && j !in fair.Pending(h);
      assert fair'.Pending(h) == if h == g then fair.Pending(g) + [j] else fair.Pending(h);
    }
  }

  lemma ListFresh(ids: seq<JobId>, L: Ledger, p: Place, j: JobId)
    requires ListHolds(ids, L, p) && j !in L && p != Waiting
    ensures ListHolds(ids, L[j := Waiting], p)
  {
  }

  lemma SetFresh(ids: set<JobId>, L: Ledger, p: Place, j: JobId)
    requires SetHolds(ids, L, p) && j !in L && p != Waiting
    ensures SetHolds(ids, L[j := Waiting], p)
  {
  }

  lemma SubmitHoused(s: Store, s': Store, L: Ledger, j: JobId, g: GroupId)
    requires Housed(s, L) && j !in L
    requires s'.fair.lists == s.fair.lists[g := s.fair.Pending(g) + [j]]
    requires s' == s.(fair := s'.fair, q := s.q.(groups := s.q.groups[j := g], retries := s'.q.retries))
    ensures Housed(s', L[j := Waiting])
  {
    SubmitPending(s.fair, s'.fair, s.q.groups, L, j, g);
    ListFresh(s.q.ready, L, OnReady, j);
    ListFresh(DeadIds(s.q.dead), L, Dead, j);
    SetFresh(s.nonReady.Keys, L, Delayed, j);
    SetFresh(s.q.deadlines.Keys, L, Flying, j);
    SetFresh(s.q.meta.Keys, L, Flying, j);
    SetFresh(s.finished, L, Finished, j);
    SetFresh(s.rejected, L, Rejected, j);
    SetFresh(s.lost, L, Lost, j);
  }

  /** The environment changes no actor, no deadline and no job's place but that of a new job. */
  lemma EnvUndisturbed(c: Config, s: State, L: Ledger, t: Store, L': Ledger)
    requires Hands(s, L) && Workers(c, s, L)
    requires t.q.deadlines == s.store.q.deadlines && s.store.now <= t.now
    requires forall j :: j in L ==> j in L' && L'[j] == L[j]
    requires forall j :: j in L' && j !in L ==> L'[j] == Waiting
    requires forall a :: Executing(s.At(a)).Some? ==> t.now <= Limit(c, s.At(a))
    ensures Hands(State(t, s.actors), L') && Workers(c, State(t, s.actors), L')
  {
    var s' := State(t, s.actors);
    forall a
      ensures OwnHand(L', a, s'.At(a)) && OwnRun(c, t, L', s'.At(a)) && Timely(c, t.now, s'.At(a))
    {
      assert s'.At(a) == s.At(a);
      assert OwnHand(L, a, s.At(a)) && OwnRun(c, s.store, L, s.At(a)) && Timely(c, s.store.now, s.At(a));
    }
    forall x, y | x != y && Executing(s'.At(x)).Some?
      ensures Executing(s'.At(y)) != Executing(s'.At(x))
    {
      assert s'.At(x) == s.At(x) && s'.At(y) == s.At(y);
    }
  }

  lemma TickHoused(s: Store, s': Store, L: Ledger)
    requires Housed(s, L) && s' == s.(now := s'.now)
    ensures Housed(s', L)
  {
  }

  lemma SubmitStore(c: Config, s: State, e: Event, t: Store)
    requires Enabled(c, s, e) && e.Submit? && t == Next(c, s, e).store
    ensures Next(c, s, e) == State(t, s.actors)
    ensures t.fair.lists == s.store.fair.lists[e.g := s.store.fair.Pending(e.g) + [e.j]]
    ensures t
      == s.store.(fair := t.fair, q := s.store.q.(groups := s.store.q.groups[e.j := e.g], retries := t.q.retries))
  {
  }

  lemma SubmitKeeps(c: Config, s: State, L: Ledger, e: Event)
    requires Consistent(c, s, L) && Enabled(c, s, e) && e.Submit?
    ensures Consistent(c, Next(c, s, e), L[e.j := Waiting])
  {
    var t := Next(c, s, e).store;
    SubmitStore(c, s, e, t);
    SubmitHoused(s.store, t, L, e.j, e.g);
    EnvUndisturbed(c, s, L, t, L[e.j := Waiting]);
  }

  lemma TickKeeps(c: Config, s: State, L: Ledger, e: Event)
    requires Consistent(c, s, L) && Punctual(c, s, e) && e.Tick?
    ensures Consistent(c, Next(c, s, e), L)
  {
    var t := Next(c, s, e).store;
    TickHoused(s.store, t, L);
    EnvUndisturbed(c, s, L, t, L);
  }

  lemma ReleaseKeeps(c: Config, s: State, L: Ledger, e: Event)
    requires Consistent(c, s, L) && e.Release?
    ensures Consistent(c, Next(c, s, e), L)
  {
    var t := Next(c, s, e).store;
    StayHoused(s.store, t, L);
    EnvUndisturbed(c, s, L, t, L);
  }

  predicate Recovers(e: Event) {
    e.By? && e.x.Recover?
  }

  /** Only recovery depends on the time limits. */
  lemma StepKeeps(c: Config, s: State, L: Ledger, e: Event)
    requires InTime(c) || !Recovers(e)
    requires Consistent(c, s, L) && Enabled(c, s, e) && Punctual(c, s, e)
    ensures Consistent(c, Next(c, s, e), MovedBy(c, s, e, L))
  {
    match e
    case Submit(_, _, _, _) => SubmitKeeps(c, s, L, e);
    case Tick(_) => TickKeeps(c, s, L, e);
    case Release(_, _) => ReleaseKeeps(c, s, L, e);
    case By(a, x) => var _ := ByKeeps(c, s, L, a, x);
  }

  // ---- Whole runs ----

  /** A run in which every worker settles its job within the time allowed. */
  ghost predicate PunctualRun(c: Config, s: State, es: seq<Event>, s': State)
    decreases |es|
  {
    if es == [] then s == s'
    else Enabled(c, s, es[0]) && Punctual(c, s, es[0]) && PunctualRun(c, Next(c, s, es[0]), es[1..], s')
  }

  lemma StartConsistent(c: Config, now: nat)
    ensures Consistent(c, Start(now), map[])
  {
  }

  lemma {:induction false} RunKeeps(c: Config, s: State, L: Ledger, es: seq<Event>, s': State) returns (L': Ledger)
    requires InTime(c)
    requires Consistent(c, s, L) && PunctualRun(c, s, es, s')
    ensures Consistent(c, s', L')
    decreases |es|
  {
    L' := L;
    if es != [] {
      StepKeeps(c, s, L, es[0]);
      L' := RunKeeps(c, Next(c, s, es[0]), MovedBy(c, s, es[0], L), es[1..], s');
    }
  }

  /** A position in the pipeline. */
  datatype Spot =
    | PendingAt(g: GroupId, i: nat)
    | HandOf(a: ActorId)
    | ReadyAt(i: nat)
    | NonReady
    | InFlight
    | DeadAt(i: nat)
    | Done
    | TurnedAway
    | Gone

  ghost predicate Occupies(s: State, j: JobId, p: Spot) {
    match p
    case PendingAt(g, i) => i < |s.store.fair.Pending(g)| && s.store.fair.Pending(g)[i] == j
    case HandOf(a) => Hand(s.At(a)) == Some(j)
    case ReadyAt(i) => i < |s.store.q.ready| && s.store.q.ready[i] == j
    case NonReady => j in s.store.nonReady
    case InFlight => j in s.store.q.deadlines
    case DeadAt(i) => i < |s.store.q.dead| && s.store.q.dead[i].job == j
    case Done => j in s.store.finished
    case TurnedAway => j in s.store.rejected
    case Gone => j in s.store.lost
  }

  /** The ledger entry that goes with a position. */
  function PlaceOf(p: Spot): Place {
    match p
    case PendingAt(_, _) => Waiting
    case HandOf(a) => Held(a)
    case ReadyAt(_) => OnReady
    case NonReady => Delayed
    case InFlight => Flying
    case DeadAt(_) => Dead
    case Done => Finished
    case TurnedAway => Rejected
    case Gone => Lost
  }

  lemma SpotPlace(c: Config, s: State, L: Ledger, j: JobId, p: Spot)
    requires Consistent(c, s, L) && Occupies(s, j, p)
    ensures j in L && L[j] == PlaceOf(p)
    ensures p.PendingAt? ==> p.g == s.store.q.GroupOf(j)
  {
    match p
    case HandOf(a) => assert OwnHand(L, a, s.At(a));
    case DeadAt(i) => assert DeadIds(s.store.q.dead)[i] == j;
    case PendingAt(g, i) => assert j in s.store.fair.Pending(g);
    case _ =>
  }

  lemma SpotUnique(c: Config, s: State, L: Ledger, j: JobId, p: Spot, p': Spot)
    requires Consistent(c, s, L) && Occupies(s, j, p) && Occupies(s, j, p')
    ensures p == p'
  {
    SpotPlace(c, s, L, j, p);
    SpotPlace(c, s, L, j, p');
    match p
    case PendingAt(g, i) => assert NoDup(s.store.fair.Pending(g));
    case DeadAt(i) =>
      assert DeadIds(s.store.q.dead)[i] == j && DeadIds(s.store.q.dead)[p'.i] == j;
    case _ =>
  }

  lemma SpotExists(c: Config, s: State, L: Ledger, j: JobId) returns (p: Spot)
    requires Consistent(c, s, L) && j in L
    ensures Occupies(s, j, p)
  {
    match L[j]
    case Waiting =>
      var g := s.store.q.GroupOf(j);
      assert j in s.store.fair.Pending(g);
      var i :| 0 <= i < |s.store.fair.Pending(g)| && s.store.fair.Pending(g)[i] == j;
      p := PendingAt(g, i);
    case Held(a) =>
      assert OwnHand(L, a, s.At(a));
      p := HandOf(a);
    case OnReady =>
      var i :| 0 <= i < |s.store.q.ready| && s.store.q.ready[i] == j;
      p := ReadyAt(i);
    case Delayed => p := NonReady;
    case Flying => p := InFlight;
    case Dead =>
      assert j in DeadIds(s.store.q.dead);
      var i :| 0 <= i < |DeadIds(s.store.q.dead)| && DeadIds(s.store.q.dead)[i] == j;
      p := DeadAt(i);
    case Finished => p := Done;
    case Rejected => p := TurnedAway;
    case Lost => p := Gone;
  }

  /** Exactly one place: in every reachable state a submitted job occupies one position, and only that one. */
  lemma ExactlyOnePlace(c: Config, now: nat, es: seq<Event>, s: State, j: JobId)
    requires InTime(c)
    requires PunctualRun(c, Start(now), es, s)
    ensures j in s.store.q.groups <==> exists p :: Occupies(s, j, p)
    ensures forall p, p' :: Occupies(s, j, p) && Occupies(s, j, p') ==> p == p'
  {
    StartConsistent(c, now);
    var L := RunKeeps(c, Start(now), map[], es, s);
    if j in s.store.q.groups {
      var p := SpotExists(c, s, L, j);
    }
    forall p | Occupies(s, j, p)
      ensures j in s.store.q.groups
    {
      SpotPlace(c, s, L, j, p);
    }
    forall p, p' | Occupies(s, j, p) && Occupies(s, j, p')
      ensures p == p'
    {
      SpotUnique(c, s, L, j, p, p');
    }
  }

  lemma RecoverUnattended(c: Config, s: State, L: Ledger, a: ActorId, js: seq<JobId>, b: ActorId)
    requires InTime(c) && Workers(c, s, L)
    ensures Executing(s.At(b)).Some? && Enabled(c, s, By(a, Recover(js))) ==> s.At(b).job !in js
    ensures Executing(s.At(b)).Some? && a != b ==> Executing(s.At(a)) != Executing(s.At(b))
  {
    if Enabled(c, s, By(a, Recover(js))) {
      OverdueUnattended(c, s, L, Recover(js), b);
    }
  }

  /** Live workers keep their jobs: whatever recovery takes, no worker is executing it, and what a
      worker executes is in flight, under nobody else's execution. */
  lemma LiveWorkersKeepJobs(c: Config, now: nat, es: seq<Event>, s: State, a: ActorId, js: seq<JobId>, b: ActorId)
    requires InTime(c)
    requires PunctualRun(c, Start(now), es, s) && Executing(s.At(b)).Some?
    ensures Occupies(s, s.At(b).job, InFlight)
    ensures Enabled(c, s, By(a, Recover(js))) ==> s.At(b).job !in js
    ensures a != b ==> Executing(s.At(a)) != Executing(s.At(b))
  {
    StartConsistent(c, now);
    var L := RunKeeps(c, Start(now), map[], es, s);
    assert OwnRun(c, s.store, L, s.At(b));
    RecoverUnattended(c, s, L, a, js, b);
  }
}
