/** Results before completion: in every run, crashes and late recoveries included, no group counts
    more jobs done than it has results. */
module PipelineResults {
  import opened Base
  import opened FairQueue
  import opened ReliableQueue
  import opened Results
  import opened Pipeline

  /** The group whose next acknowledgement the actor has already paid for with a result. */
  function AwaitsAck(groups: map<JobId, GroupId>, k: Ctl): Option<GroupId> {
    match k
    case Recorded(j) => Some(GroupIn(groups, j))
    case Buried(j) => Some(GroupIn(groups, j))
    case Reporting(pairs, recorded) => if recorded && pairs != [] then Some(pairs[0].1) else None
    case _ => None
  }

  function Due(groups: map<JobId, GroupId>, k: Ctl, g: GroupId): nat {
    if AwaitsAck(groups, k) == Some(g) then 1 else 0
  }

  /** A job whose data has been loaded exists. */
  predicate JobKnown(s: Store, k: Ctl) {
    (k.Running? || k.Completing? || k.Recorded? || k.Failing? || k.Requeueing? || k.Burying? || k.Buried?) ==>
      k.job in s.q.groups
  }

  function Done(s: Store, g: GroupId): nat {
    s.fair.MetaOf(g).done
  }

  lemma {:induction js} MoveFrame(s: Store, js: seq<JobId>)
    ensures var r := s.Move(js);
      r == s.(nonReady := r.nonReady, congestion := r.congestion, q := s.q.(ready := r.q.ready))
  {
  }

  lemma {:induction js} RecoverGroups(q: Queues, js: seq<JobId>, now: nat, maxRetry: nat)
    ensures q.Recover(js, now, maxRetry).groups == q.groups
  {
  }

  lemma SupplyGroups(c: Config, s: Store, k: Ctl, x: Action)
    requires Guard(c, s, k, x) && Supplies(x)
    ensures Effect(c, s, k, x).q.groups == s.q.groups
  {
    if x.Dispatch? {
      MoveFrame(s, x.js);
    }
  }

  lemma WorkGroups(c: Config, s: Store, k: Ctl, x: Action)
    requires Guard(c, s, k, x) && !Supplies(x)
    ensures Effect(c, s, k, x).q.groups == s.q.groups
  {
    if x.Recover? {
      RecoverGroups(s.q, x.js, s.now, c.orphanMaxRetry);
    }
  }

  lemma GroupsKept(c: Config, s: Store, k: Ctl, x: Action)
    requires Guard(c, s, k, x)
    ensures Effect(c, s, k, x).q.groups == s.q.groups
  {
    if Supplies(x) {
      SupplyGroups(c, s, k, x);
    } else {
      WorkGroups(c, s, k, x);
    }
  }

  /** What a step adds to the done count and to the actor's own debt, it adds to the results. */
  ghost predicate Pays(s: Store, k: Ctl, s': Store, k': Ctl, g: GroupId) {
    Done(s', g) + Due(s'.q.groups, k', g) + |s.Tally(g).results|
      <= Done(s, g) + Due(s.q.groups, k, g) + |s'.Tally(g).results|
  }

  function RecordedOutcome(k: Ctl): Outcome
    requires k.Completing? || k.Burying? || (k.Reporting? && k.pairs != [])
  {
    if k.Completing? then Outcome(k.job, k.success, k.durationMs)
    else if k.Burying? then Outcome(k.job, false, 0)
    else Outcome(k.pairs[0].0, false, 0)
  }

  lemma RecordAdds(c: Config, s: Store, k: Ctl)
    requires Guard(c, s, k, Record)
    ensures AwaitsAck(s.q.groups, k).None?
    ensures var h := AwaitsAck(s.q.groups, Control(c, s, k, Record));
      h.Some? && Effect(c, s, k, Record) == s.AddResult(h.value, RecordedOutcome(k))
  {
  }

  lemma TalliesKept(c: Config, s: Store, k: Ctl, x: Action)
    requires Guard(c, s, k, x) && !x.Record?
    ensures Effect(c, s, k, x).tallies == s.tallies
  {
    if x.Dispatch? {
      MoveFrame(s, x.js);
    }
  }

  /** A step leaves a tally alone or records one outcome in it. */
  lemma TallyStep(c: Config, s: Store, k: Ctl, x: Action, g: GroupId) returns (o: Outcome)
    requires Guard(c, s, k, x)
    ensures var t := Effect(c, s, k, x).Tally(g); t == s.Tally(g) || t == s.Tally(g).Record(o)
  {
    o := Outcome(0, false, 0);
    if x.Record? {
      RecordAdds(c, s, k);
      o := RecordedOutcome(k);
    } else {
      TalliesKept(c, s, k, x);
    }
  }

  lemma CountsKept(t: Tally, t': Tally, o: Outcome)
    requires t.Counts() && (t' == t || t' == t.Record(o))
    ensures t'.Counts()
  {
  }

  lemma ActionPaysSupply(c: Config, s: Store, k: Ctl, x: Action, g: GroupId)
    requires Guard(c, s, k, x)
    requires Supplies(x)
    ensures Pays(s, k, Effect(c, s, k, x), Control(c, s, k, x), g)
  {
    match x
    case Fetch(_, _) =>
    case Poll =>
    case CheckRoom =>
    case CheckRate(_) =>
    case Push =>
    case Delay(_) =>
    case DelayFixed =>
    case DispatchCheck =>
    case Dispatch(js) => MoveFrame(s, js);
    case _ =>
  }

  lemma ActionPaysDequeue(c: Config, s: Store, k: Ctl, x: Action, g: GroupId)
    requires Guard(c, s, k, x) && (x.CheckReady? || x.Peek? || x.ReadMeta? || x.Pop?)
    ensures Pays(s, k, Effect(c, s, k, x), Control(c, s, k, x), g)
  {
  }

  lemma ActionPaysFlight(c: Config, s: Store, k: Ctl, x: Action, g: GroupId)
    requires Guard(c, s, k, x) && Executes(x)
    ensures Pays(s, k, Effect(c, s, k, x), Control(c, s, k, x), g)
  {
    match x
    case Load =>
    case Discard =>
    case Heartbeat =>
    case Settle(_, _) =>
    case _ => ActionPaysDequeue(c, s, k, x, g);
  }

  lemma ActionPaysBooks(c: Config, s: Store, k: Ctl, x: Action, g: GroupId)
    requires Guard(c, s, k, x) && !Supplies(x) && !Executes(x)
    ensures Pays(s, k, Effect(c, s, k, x), Control(c, s, k, x), g)
  {
    match x
    case Record => RecordAdds(c, s, k);
    case Acknowledge =>
    case ResetStats =>
    case CountRetry =>
    case Bury =>
    case Recover(_) =>
    case Crash =>
    case _ =>
  }

  lemma ActionPays(c: Config, s: Store, k: Ctl, x: Action, g: GroupId)
    requires Guard(c, s, k, x)
    ensures Pays(s, k, Effect(c, s, k, x), Control(c, s, k, x), g)
  {
    if Supplies(x) {
      ActionPaysSupply(c, s, k, x, g);
    } else if Executes(x) {
      ActionPaysFlight(c, s, k, x, g);
    } else {
      ActionPaysBooks(c, s, k, x, g);
    }
  }

  lemma JobKnownKept(c: Config, s: Store, k: Ctl, x: Action)
    requires Guard(c, s, k, x) && JobKnown(s, k)
    ensures JobKnown(Effect(c, s, k, x), Control(c, s, k, x))
  {
    GroupsKept(c, s, k, x);
  }

  // ---- What is recorded ----

  /** A settled job's result: the job, whether the processor succeeded, and the time it took, under the job's group,
      whatever the store has become by the time it is recorded. */
  lemma SettledIsRecorded(c: Config, s: Store, k: Ctl, verdict: Verdict, durationMs: nat, s': Store)
    requires Guard(c, s, k, Settle(verdict, durationMs)) && !verdict.Retryable?
    ensures var k' := Control(c, s, k, Settle(verdict, durationMs));
      && Guard(c, s', k', Record)
      && var t, g := Effect(c, s', k', Record), GroupIn(s'.q.groups, k.job);
         && t.Tally(g).results == s'.Tally(g).results + [Outcome(k.job, verdict == Success, durationMs)]
         && forall h :: h != g ==> t.Tally(h) == s'.Tally(h)
  {
  }

  /** A job whose retries are used up gets a dead-letter entry with its group, its retry count and the time, and
      then a failed result. */
  lemma ExhaustedIsRecorded(c: Config, s: Store, k: Ctl, s': Store)
    requires Guard(c, s, k, Bury)
    ensures k.retry >= c.workerMaxRetry
    ensures Effect(c, s, k, Bury).q.dead == s.q.dead + [DeadEntry(k.job, GroupIn(s.q.groups, k.job), k.retry, s.now)]
    ensures var k' := Control(c, s, k, Bury);
      && Guard(c, s', k', Record)
      && var t, g := Effect(c, s', k', Record), GroupIn(s'.q.groups, k.job);
         t.Tally(g).results == s'.Tally(g).results + [Outcome(k.job, false, 0)]
  {
  }

  /** A reported orphan gets a failed result under the reported group. */
  lemma OrphanIsRecorded(c: Config, s: Store, k: Ctl)
    requires Guard(c, s, k, Record) && k.Reporting?
    ensures var (j, g) := k.pairs[0];
      Effect(c, s, k, Record).Tally(g).results == s.Tally(g).results + [Outcome(j, false, 0)]
  {
  }

  // ---- All actors together ----

  ghost function Awaiting(s: State, g: GroupId): set<ActorId> {
    set a | a in s.actors && AwaitsAck(s.store.q.groups, s.actors[a]) == Some(g)
  }

  ghost predicate Paid(s: State, g: GroupId) {
    Done(s.store, g) + |Awaiting(s, g)| <= |s.store.Tally(g).results|
  }

  ghost predicate Inv(s: State) {
    && (forall a :: a in s.actors ==> JobKnown(s.store, s.actors[a]))
    && (forall g: GroupId :: Paid(s, g))
  }

  lemma AwaitingExcept(s: State, a: ActorId, g: GroupId)
    ensures |Awaiting(s, g)| == |Awaiting(s, g) - {a}| + Due(s.store.q.groups, s.At(a), g)
  {
  }

  /** A step that pays for itself keeps all groups paid, whatever the other actors await. */
  lemma PaidKept(s: State, a: ActorId, t: Store, k: Ctl, g: GroupId)
    requires t.q.groups == s.store.q.groups
    requires Paid(s, g) && Pays(s.store, s.At(a), t, k, g)
    ensures Paid(State(t, s.actors[a := k]), g)
  {
    var s' := State(t, s.actors[a := k]);
    AwaitingExcept(s, a, g);
    AwaitingExcept(s', a, g);
    forall b | b != a
      ensures b in Awaiting(s', g) <==> b in Awaiting(s, g)
    {
    }
    assert Awaiting(s', g) - {a} == Awaiting(s, g) - {a};
  }

  /** So does a step of the environment, which can only lower a done count. */
  lemma PaidOutside(s: State, t: Store, g: GroupId)
    requires forall a :: a in s.actors ==> JobKnown(s.store, s.actors[a])
    requires forall j :: j in s.store.q.groups ==> j in t.q.groups && t.q.groups[j] == s.store.q.groups[j]
    requires Paid(s, g) && Done(t, g) <= Done(s.store, g) && t.tallies == s.store.tallies
    ensures Paid(State(t, s.actors), g)
  {
    forall a
      ensures a in Awaiting(State(t, s.actors), g) <==> a in Awaiting(s, g)
    {
      assert a in s.actors ==> JobKnown(s.store, s.actors[a]);
    }
    assert Awaiting(State(t, s.actors), g) == Awaiting(s, g);
  }

  lemma ByKeeps(c: Config, s: State, a: ActorId, x: Action)
    requires Enabled(c, s, By(a, x)) && Inv(s)
    ensures Inv(Next(c, s, By(a, x)))
  {
    var s' := Next(c, s, By(a, x));
    GroupsKept(c, s.store, s.At(a), x);
    JobKnownKept(c, s.store, s.At(a), x);
    forall g: GroupId
      ensures Paid(s', g)
    {
      assert Paid(s, g);
      ActionPays(c, s.store, s.At(a), x, g);
      PaidKept(s, a, s'.store, s'.actors[a], g);
    }
  }

  lemma StepKeeps(c: Config, s: State, e: Event)
    requires Enabled(c, s, e) && Inv(s)
    ensures Inv(Next(c, s, e))
  {
    match e
    case By(a, x) => ByKeeps(c, s, a, x);
    case _ =>
      var s' := Next(c, s, e);
      forall g: GroupId
        ensures Paid(s', g)
      {
        assert Paid(s, g);
        PaidOutside(s, s'.store, g);
      }
  }

  lemma {:induction false} RunKeeps(c: Config, s: State, es: seq<Event>, s': State)
    requires Inv(s) && Run(c, s, es, s')
    ensures Inv(s')
    decreases |es|
  {
    if es != [] {
      StepKeeps(c, s, es[0]);
      RunKeeps(c, Next(c, s, es[0]), es[1..], s');
    }
  }

  /** The counters agree with the list, in every state a run passes through. */
  lemma {:induction false} RunCounts(c: Config, s: State, es: seq<Event>, s': State, g: GroupId)
    requires s.store.Tally(g).Counts() && Run(c, s, es, s')
    ensures s'.store.Tally(g).Counts()
    decreases |es|
  {
    if es != [] {
      var m := Next(c, s, es[0]);
      var o := Outcome(0, false, 0);
      if es[0].By? {
        o := TallyStep(c, s.store, s.At(es[0].a), es[0].x, g);
      }
      CountsKept(s.store.Tally(g), m.store.Tally(g), o);
      RunCounts(c, m, es[1..], s', g);
    }
  }

  lemma StartPaid(now: nat)
    ensures Inv(Start(now))
  {
  }

  lemma CoveredBy(s: State, g: GroupId)
    requires Inv(s)
    ensures Done(s.store, g) <= |s.store.Tally(g).results|
  {
    assert Paid(s, g);
  }

  /** In every reachable state a group's done count is covered by its recorded results, and the two
      result counters agree with the result list. */
  lemma ResultsBeforeCompletion(c: Config, now: nat, es: seq<Event>, s: State, g: GroupId)
    requires Run(c, Start(now), es, s)
    ensures var t := s.store.Tally(g);
      && s.store.fair.MetaOf(g).done <= t.successCount + t.failedCount == |t.results|
      && t.failedCount == |FailedIds(t.results)|
  {
    StartPaid(now);
    RunKeeps(c, Start(now), es, s);
    CoveredBy(s, g);
    assert s.store.Tally(g).Counts() by {
      RunCounts(c, Start(now), es, s, g);
    }
  }

  /** Whoever is told that the group is complete finds at least as many results as the group has jobs. */
  lemma CompleteMeansAllRecorded(c: Config, now: nat, es: seq<Event>, s: State, a: ActorId, g: GroupId)
    requires Run(c, Start(now), es, s)
    requires Enabled(c, s, By(a, Acknowledge)) && AwaitsAck(s.store.q.groups, s.At(a)) == Some(g)
    requires s.store.fair.AckCompletes(g)
    ensures s.store.fair.MetaOf(g).total <= |s.store.Tally(g).results|
  {
    StartPaid(now);
    RunKeeps(c, Start(now), es, s);
    assert Paid(s, g);
    AwaitingExcept(s, a, g);
  }
}
