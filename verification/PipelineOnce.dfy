/** One result per job: when an in-flight entry that recovery would dead-letter names its job's own group, a group
    that is reported complete has exactly one result for each of its jobs and none for anybody else's. */
module PipelineOnce {
  import opened Base
  import opened FairQueue
  import opened ReliableQueue
  import opened Results
  import opened SortedSet
  import opened Pipeline
  import opened PipelinePlaces
  import opened PipelineRetries
  import PipelineResults

  /** The jobs a result list is about, in order. */
  function ResultIds(rs: seq<Outcome>): (ids: seq<JobId>)
    ensures |ids| == |rs|
  {
    if rs == [] then [] else ResultIds(rs[..|rs| - 1]) + [rs[|rs| - 1].job]
  }

  function Ids(s: Store, g: GroupId): seq<JobId> {
    ResultIds(s.Tally(g).results)
  }

  /** Dead-lettered jobs whose failure the actor still has to record. */
  function ToRecord(k: Ctl): seq<(JobId, Option<GroupId>)> {
    match k
    case Burying(j) => [(j, None)]
    case Reporting(pairs, recorded) => PairsOf(if recorded && pairs != [] then pairs[1..] else pairs)
    case _ => []
  }

  function PairsOf(pairs: seq<(JobId, GroupId)>): (r: seq<(JobId, Option<GroupId>)>)
    ensures |r| == |pairs| && forall i :: 0 <= i < |r| ==> r[i] == (pairs[i].0, Some(pairs[i].1))
  {
    seq(|pairs|, i requires 0 <= i < |pairs| => (pairs[i].0, Some(pairs[i].1)))
  }

  /** Places a recorded job can be in. */
  predicate MayBeRecorded(p: Place) {
    p == Finished || p == Lost || p == Dead || p.Held?
  }

  /** Results are about jobs of their own group, at most one per job. */
  ghost predicate Booked(s: Store, L: Ledger, g: GroupId) {
    && NoDup(Ids(s, g))
    && forall j :: j in Ids(s, g) ==> j in L && s.q.GroupOf(j) == g && MayBeRecorded(L[j])
  }

  /** A held job whose result is not yet recorded has no result. */
  ghost predicate HandOpen(s: Store, k: Ctl) {
    Hand(k).Some? && !k.Recorded? ==> k.job !in Ids(s, s.q.GroupOf(k.job))
  }

  /** What an actor has to record is dead-lettered, not yet recorded, listed once, and under its own group. */
  ghost predicate TodoOpen(s: Store, L: Ledger, k: Ctl) {
    var todo := ToRecord(k);
    && (forall i :: 0 <= i < |todo| ==>
         var (j, g) := todo[i];
         && j in L && L[j] == Dead && j !in Ids(s, s.q.GroupOf(j))
         && (g.Some? ==> g.value == s.q.GroupOf(j)))
    && (forall i, n :: 0 <= i < n < |todo| ==> todo[i].0 != todo[n].0)
  }

  lemma AppendIds(t: Tally, o: Outcome)
    ensures ResultIds(t.Record(o).results) == ResultIds(t.results) + [o.job]
  {
    var rs := t.Record(o).results;
    assert rs[..|rs| - 1] == t.results;
  }

  /** Only Record changes the results. */
  lemma IdsKept(c: Config, s: Store, k: Ctl, x: Action, g: GroupId)
    requires Guard(c, s, k, x) && !x.Record?
    ensures Ids(Effect(c, s, k, x), g) == Ids(s, g)
  {
    PipelineResults.TalliesKept(c, s, k, x);
  }

  /** The job and group that Record is about. */
  function Subject(s: Store, k: Ctl): (JobId, GroupId)
    requires k.Completing? || k.Burying? || (k.Reporting? && k.pairs != [])
  {
    if k.Reporting? then k.pairs[0] else (k.job, s.q.GroupOf(k.job))
  }

  lemma RecordIds(c: Config, s: Store, k: Ctl, g: GroupId)
    requires Guard(c, s, k, Record)
    ensures var (j, h) := Subject(s, k);
      Ids(Effect(c, s, k, Record), g) == if g == h then Ids(s, g) + [j] else Ids(s, g)
    ensures Effect(c, s, k, Record).q == s.q
  {
    PipelineResults.RecordAdds(c, s, k);
    AddIds(s, Subject(s, k).1, PipelineResults.RecordedOutcome(k), g);
  }

  lemma AddIds(s: Store, h: GroupId, o: Outcome, g: GroupId)
    ensures Ids(s.AddResult(h, o), g) == if g == h then Ids(s, g) + [o.job] else Ids(s, g)
  {
    AppendIds(s.Tally(g), o);
  }

  /** Before it is recorded the subject of Record has no result and may get one. */
  lemma SubjectOpen(s: Store, L: Ledger, a: ActorId, k: Ctl)
    requires k.Completing? || k.Burying? || (k.Reporting? && k.pairs != [] && !k.recorded)
    requires OwnHand(L, a, k) && HandOpen(s, k) && TodoOpen(s, L, k)
    ensures var (j, h) := Subject(s, k);
      j in L && s.q.GroupOf(j) == h && j !in Ids(s, h) && (L[j] == Dead || L[j] == Held(a))
  {
    if k.Completing? {
      InHand(L, a, k);
    } else {
      var first := ToRecord(k)[0];
    }
  }

  // ---- In-flight entries ----

  /** Stored with job j, the metadata lets recovery dead-letter j only under j's own group. */
  predicate OwnTag(c: Config, q: Queues, j: JobId, m: Meta) {
    m.retry >= c.orphanMaxRetry ==> m.group == q.GroupOf(j)
  }

  ghost predicate AllTagged(c: Config, q: Queues) {
    forall j :: j in q.meta ==> j in q.groups && OwnTag(c, q, j, q.meta[j])
  }

  /** What a pop stores is tagged. Its retry count may be stale, and, below the orphan limit, its group another's. */
  predicate TaggedAction(c: Config, s: Store, k: Ctl, x: Action) {
    x.Pop? && k.Armed? && s.q.ready != [] ==> OwnTag(c, s.q, s.q.ready[0], k.meta)
  }

  predicate TaggedEvent(c: Config, s: State, e: Event) {
    e.By? ==> TaggedAction(c, s.store, s.At(e.a), e.x)
  }

  lemma {:induction false} RecoverMeta(q: Queues, js: seq<JobId>, now: nat, maxRetry: nat)
    ensures forall j :: j in q.Recover(js, now, maxRetry).meta ==>
      j in q.meta && q.Recover(js, now, maxRetry).meta[j] == q.meta[j]
  {
    if js != [] {
      RecoverMeta(q, js[..|js| - 1], now, maxRetry);
    }
  }

  /** Only Pop writes metadata. */
  lemma ActionMeta(c: Config, s: Store, k: Ctl, x: Action, j: JobId)
    requires Guard(c, s, k, x) && j in Effect(c, s, k, x).q.meta
    ensures (j in s.q.meta && Effect(c, s, k, x).q.meta[j] == s.q.meta[j])
      || (x.Pop? && s.q.ready != [] && j == s.q.ready[0] && Effect(c, s, k, x).q.meta[j] == k.meta)
  {
    if Supplies(x) {
      SupplyMeta(c, s, k, x);
    } else if x.Recover? {
      RecoverMeta(s.q, x.js, s.now, c.orphanMaxRetry);
    }
  }

  lemma SupplyMeta(c: Config, s: Store, k: Ctl, x: Action)
    requires Guard(c, s, k, x) && Supplies(x)
    ensures Effect(c, s, k, x).q.meta == s.q.meta
  {
    if x.Dispatch? {
      PipelineResults.MoveFrame(s, x.js);
    }
  }

  lemma ActionTagged(c: Config, s: Store, k: Ctl, x: Action)
    requires Guard(c, s, k, x) && AllTagged(c, s.q) && TaggedAction(c, s, k, x)
    requires s.q.ready != [] ==> s.q.ready[0] in s.q.groups
    ensures AllTagged(c, Effect(c, s, k, x).q)
  {
    PipelineResults.GroupsKept(c, s, k, x);
    forall j | j in Effect(c, s, k, x).q.meta
      ensures j in s.q.groups && OwnTag(c, s.q, j, Effect(c, s, k, x).q.meta[j])
    {
      ActionMeta(c, s, k, x, j);
    }
  }

  lemma StepTagged(c: Config, s: State, L: Ledger, e: Event)
    requires Housed(s.store, L) && AllTagged(c, s.store.q) && Enabled(c, s, e) && TaggedEvent(c, s, e)
    ensures AllTagged(c, Next(c, s, e).store.q)
  {
    if e.By? {
      if s.store.q.ready != [] {
        assert s.store.q.ready[0] in s.store.q.ready;
      }
      ActionTagged(c, s.store, s.At(e.a), e.x);
    }
  }

  // ---- One action ----

  /** A place a recorded job may be in leads only to such places. */
  lemma RecordablePlaces(c: Config, s: Store, L: Ledger, a: ActorId, k: Ctl, x: Action, j: JobId)
    requires Guard(c, s, k, x) && Seated(s, L, a, k, x) && j in L && MayBeRecorded(L[j])
    requires Hand(k) == Some(j) ==> k.Recorded?
    ensures j in Moved(c, s, a, k, x, L) && MayBeRecorded(Moved(c, s, a, k, x, L)[j])
    ensures L[j] == Dead ==> Moved(c, s, a, k, x, L)[j] == Dead
  {
    if x.Dispatch? {
      LedgerMoveAt(L, x.js, j);
    } else if x.Recover? {
      LedgerRecoverAt(s.q, x.js, s.now, c.orphanMaxRetry, L, j);
    } else if j !in Touched(s, k, x) {
      OthersSamePlace(c, s, L, a, k, x, j);
    }
  }

  lemma RecordBooked(c: Config, s: Store, L: Ledger, a: ActorId, k: Ctl, g: GroupId)
    requires Guard(c, s, k, Record) && OwnHand(L, a, k) && HandOpen(s, k) && TodoOpen(s, L, k) && Booked(s, L, g)
    ensures Booked(Effect(c, s, k, Record), L, g)
  {
    RecordIds(c, s, k, g);
    SubjectOpen(s, L, a, k);
  }

  lemma ActionBooked(c: Config, s: Store, L: Ledger, a: ActorId, k: Ctl, x: Action, s': Store, L': Ledger, g: GroupId)
    requires Guard(c, s, k, x) && s' == Effect(c, s, k, x) && L' == Moved(c, s, a, k, x, L)
    requires Seated(s, L, a, k, x) && OwnHand(L, a, k) && HandOpen(s, k) && TodoOpen(s, L, k) && Booked(s, L, g)
    ensures Booked(s', L', g)
  {
    if x.Record? {
      RecordBooked(c, s, L, a, k, g);
    } else {
      IdsKept(c, s, k, x, g);
      PipelineResults.GroupsKept(c, s, k, x);
      forall j | j in Ids(s', g)
        ensures j in L' && s'.q.GroupOf(j) == g && MayBeRecorded(L'[j])
      {
        assert Hand(k) == Some(j) ==> k.job == j;
        RecordablePlaces(c, s, L, a, k, x, j);
      }
    }
  }

  /** A job outside the places recorded jobs can be in has no result. */
  lemma Unrecorded(s: Store, L: Ledger, j: JobId)
    requires j in L && !MayBeRecorded(L[j]) && Booked(s, L, s.q.GroupOf(j))
    ensures j !in Ids(s, s.q.GroupOf(j))
  {
  }

  /** Where an unrecorded job in the hand comes from. */
  lemma HandNext(c: Config, s: Store, k: Ctl, x: Action)
    requires Guard(c, s, k, x)
    ensures var k' := Control(c, s, k, x); Hand(k').Some? && !k'.Recorded? ==>
      && !x.Record?
      && (if x.Fetch? || x.Settle? then Touched(s, k, x) == [k'.job] else Hand(k) == Some(k'.job) && !k.Recorded?)
  {
  }

  lemma ActionHandOpen(c: Config, s: Store, L: Ledger, a: ActorId, k: Ctl, x: Action)
    requires Guard(c, s, k, x) && Seated(s, L, a, k, x) && HandOpen(s, k)
    requires forall g: GroupId :: Booked(s, L, g)
    ensures HandOpen(Effect(c, s, k, x), Control(c, s, k, x))
  {
    var k' := Control(c, s, k, x);
    if Hand(k').Some? && !k'.Recorded? {
      HandNext(c, s, k, x);
      PipelineResults.GroupsKept(c, s, k, x);
      IdsKept(c, s, k, x, s.q.GroupOf(k'.job));
      if x.Fetch? || x.Settle? {
        Unrecorded(s, L, k'.job);
      }
    }
  }

  lemma {:induction false} CasualtyFacts(q: Queues, js: seq<JobId>, now: nat, maxRetry: nat)
    requires NoDup(js)
    ensures forall i :: 0 <= i < |Casualties(q, js, now, maxRetry)| ==>
      var d := Casualties(q, js, now, maxRetry)[i];
      d.job in js && q.RecoveryMeta(d.job).retry >= maxRetry && d.group == q.RecoveryMeta(d.job).group
    ensures forall i, n :: 0 <= i < n < |Casualties(q, js, now, maxRetry)| ==>
      Casualties(q, js, now, maxRetry)[i].job != Casualties(q, js, now, maxRetry)[n].job
  {
    if js != [] {
      CasualtyFacts(q, js[..|js| - 1], now, maxRetry);
      assert js == js[..|js| - 1] + [js[|js| - 1]];
    }
  }

  /** The dead-letter report names overdue jobs, each once, under their own groups. */
  lemma ReportOpen(c: Config, s: Store, L: Ledger, js: seq<JobId>, s': Store, L': Ledger, k': Ctl)
    requires BatchIn(L, js, Flying) && NoDup(js) && AllTagged(c, s.q) && SetHolds(s.q.meta.Keys, L, Flying)
    requires forall g: GroupId :: Booked(s, L, g)
    requires s'.q == s.q.Recover(js, s.now, c.orphanMaxRetry) && s'.tallies == s.tallies
    requires L' == LedgerRecover(s.q, js, s.now, c.orphanMaxRetry, L)
    requires k'.Idle? || k' == Reporting(s.q.Report(js, s.now, c.orphanMaxRetry), false)
    ensures TodoOpen(s', L', k')
    ensures forall i :: 0 <= i < |ToRecord(k')| ==> ToRecord(k')[i].0 in js
  {
    CasualtyFacts(s.q, js, s.now, c.orphanMaxRetry);
    RecoverSplits(s.q, js, s.now, c.orphanMaxRetry);
    PipelineResults.RecoverGroups(s.q, js, s.now, c.orphanMaxRetry);
    var todo := ToRecord(k');
    forall i | 0 <= i < |todo|
      ensures var (j, g) := todo[i];
        && j in js && j in L' && L'[j] == Dead && j !in Ids(s', s'.q.GroupOf(j))
        && (g.Some? ==> g.value == s'.q.GroupOf(j))
    {
      var d := Casualties(s.q, js, s.now, c.orphanMaxRetry)[i];
      assert todo[i] == (d.job, Some(d.group));
      assert d.job in L && L[d.job] == Flying;
      assert d.job in s.q.meta.Keys;
      RecoverFate(s.q, js, s.now, c.orphanMaxRetry, L, d.job);
      Unrecorded(s, L, d.job);
    }
  }

  lemma RecordTodo(c: Config, s: Store, L: Ledger, a: ActorId, k: Ctl)
    requires Guard(c, s, k, Record) && OwnHand(L, a, k) && HandOpen(s, k) && TodoOpen(s, L, k)
    ensures TodoOpen(Effect(c, s, k, Record), L, Control(c, s, k, Record))
    ensures ToRecord(Control(c, s, k, Record)) == if k.Completing? then [] else ToRecord(k)[1..]
  {
    var s', k' := Effect(c, s, k, Record), Control(c, s, k, Record);
    var todo := ToRecord(k');
    assert todo == if k.Completing? then [] else ToRecord(k)[1..];
    forall i | 0 <= i < |todo|
      ensures var (j, g) := todo[i];
        && j in L && L[j] == Dead && j !in Ids(s', s'.q.GroupOf(j))
        && (g.Some? ==> g.value == s'.q.GroupOf(j))
    {
      assert todo[i] == ToRecord(k)[i + 1] && ToRecord(k)[0].0 != ToRecord(k)[i + 1].0;
      RecordIds(c, s, k, s.q.GroupOf(todo[i].0));
    }
  }

  /** What an actor has to record after an action that is neither Record nor Recover. */
  lemma TodoNext(c: Config, s: Store, k: Ctl, x: Action)
    requires Guard(c, s, k, x) && !x.Record? && !x.Recover?
    ensures var k' := Control(c, s, k, x);
      if x.Bury? then ToRecord(k') == [(k.job, None)]
      else ToRecord(k') == [] || (x.Acknowledge? && k.Reporting? && ToRecord(k') == ToRecord(k))
  {
  }

  lemma ActionTodo(c: Config, s: Store, L: Ledger, a: ActorId, k: Ctl, x: Action, s': Store, L': Ledger, k': Ctl)
    requires Guard(c, s, k, x) && s' == Effect(c, s, k, x) && L' == Moved(c, s, a, k, x, L) && k' == Control(c, s, k, x)
    requires HandOpen(s, k) && TodoOpen(s, L, k) && !x.Record? && !x.Recover?
    ensures TodoOpen(s', L', k')
    ensures ToRecord(k') == [] || ToRecord(k') == ToRecord(k) || (x.Bury? && ToRecord(k') == [(k.job, None)])
  {
    TodoNext(c, s, k, x);
    if x.Bury? {
      IdsKept(c, s, k, x, s.q.GroupOf(k.job));
    } else if x.Acknowledge? && k.Reporting? {
      assert forall g: GroupId :: s'.Tally(g) == s.Tally(g);
    }
  }

  /** The record of one actor closes nothing that another holds or has to record. */
  lemma RecordOthers(c: Config, s: Store, L: Ledger, a: ActorId, k: Ctl, k2: Ctl)
    requires Guard(c, s, k, Record) && OwnHand(L, a, k) && HandOpen(s, k) && TodoOpen(s, L, k)
    requires HandOpen(s, k2) && TodoOpen(s, L, k2)
    requires Hand(k2).Some? ==> k2.job in L && L[k2.job].Held? && L[k2.job] != Held(a)
    requires forall i, n :: 0 <= i < |ToRecord(k)| && 0 <= n < |ToRecord(k2)| ==> ToRecord(k)[i].0 != ToRecord(k2)[n].0
    ensures HandOpen(Effect(c, s, k, Record), k2) && TodoOpen(Effect(c, s, k, Record), L, k2)
  {
    SubjectOpen(s, L, a, k);
    SubjectApart(s, L, a, k, k2);
    forall g: GroupId
      ensures Ids(Effect(c, s, k, Record), g) == if g == Subject(s, k).1 then Ids(s, g) + [Subject(s, k).0]
        else Ids(s, g)
    {
      RecordIds(c, s, k, g);
    }
    RecordIds(c, s, k, 0);
    StaysOpen(s, L, Effect(c, s, k, Record), Subject(s, k).0, Subject(s, k).1, k2);
  }

  /** The subject of one actor's record is not in another's care. */
  lemma SubjectApart(s: Store, L: Ledger, a: ActorId, k: Ctl, k2: Ctl)
    requires k.Completing? || k.Burying? || (k.Reporting? && k.pairs != [] && !k.recorded)
    requires OwnHand(L, a, k) && TodoOpen(s, L, k) && TodoOpen(s, L, k2)
    requires Hand(k2).Some? ==> k2.job in L && L[k2.job].Held? && L[k2.job] != Held(a)
    requires forall i, n :: 0 <= i < |ToRecord(k)| && 0 <= n < |ToRecord(k2)| ==> ToRecord(k)[i].0 != ToRecord(k2)[n].0
    ensures Hand(k2) != Some(Subject(s, k).0)
    ensures forall n :: 0 <= n < |ToRecord(k2)| ==> ToRecord(k2)[n].0 != Subject(s, k).0
  {
    if k.Completing? {
      InHand(L, a, k);
    } else {
      assert ToRecord(k)[0].0 == Subject(s, k).0;
    }
  }

  lemma StaysOpen(s: Store, L: Ledger, s': Store, j: JobId, h: GroupId, k2: Ctl)
    requires HandOpen(s, k2) && TodoOpen(s, L, k2) && s'.q == s.q
    requires Hand(k2) != Some(j) && forall n :: 0 <= n < |ToRecord(k2)| ==> ToRecord(k2)[n].0 != j
    requires forall g: GroupId :: Ids(s', g) == if g == h then Ids(s, g) + [j] else Ids(s, g)
    ensures HandOpen(s', k2) && TodoOpen(s', L, k2)
  {
  }

  lemma ActionOthers(c: Config, s: Store, L: Ledger, a: ActorId, k: Ctl, x: Action, k2: Ctl)
    requires Guard(c, s, k, x) && !x.Record? && Seated(s, L, a, k, x) && OwnHand(L, a, k)
    requires HandOpen(s, k2) && TodoOpen(s, L, k2)
    ensures HandOpen(Effect(c, s, k, x), k2) && TodoOpen(Effect(c, s, k, x), Moved(c, s, a, k, x, L), k2)
  {
    var s', L' := Effect(c, s, k, x), Moved(c, s, a, k, x, L);
    PipelineResults.GroupsKept(c, s, k, x);
    forall g: GroupId
      ensures Ids(s', g) == Ids(s, g)
    {
      IdsKept(c, s, k, x, g);
    }
    var todo := ToRecord(k2);
    forall n | 0 <= n < |todo|
      ensures todo[n].0 in L' && L'[todo[n].0] == Dead
    {
      RecordablePlaces(c, s, L, a, k, x, todo[n].0);
    }
  }

  // ---- All actors together ----

  ghost predicate Disjoint(k: Ctl, k2: Ctl) {
    forall i, n :: 0 <= i < |ToRecord(k)| && 0 <= n < |ToRecord(k2)| ==> ToRecord(k)[i].0 != ToRecord(k2)[n].0
  }

  ghost predicate AllBooked(s: Store, L: Ledger) {
    forall g: GroupId :: Booked(s, L, g)
  }

  ghost predicate AllOpen(s: State, L: Ledger) {
    && (forall a :: HandOpen(s.store, s.At(a)) && TodoOpen(s.store, L, s.At(a)))
    && (forall a, b :: a != b ==> Disjoint(s.At(a), s.At(b)))
  }

  ghost predicate Once(s: State, L: Ledger) {
    AllBooked(s.store, L) && AllOpen(s, L)
  }

  /** What k' has to record, k held or had to record. */
  ghost predicate Inherits(k: Ctl, k': Ctl) {
    forall i :: 0 <= i < |ToRecord(k')| ==>
      Hand(k) == Some(ToRecord(k')[i].0) || exists n :: 0 <= n < |ToRecord(k)| && ToRecord(k)[n].0 == ToRecord(k')[i].0
  }

  lemma TodoInherited(c: Config, s: Store, k: Ctl, x: Action)
    requires Guard(c, s, k, x) && !x.Recover?
    ensures Inherits(k, Control(c, s, k, x))
  {
    var k' := Control(c, s, k, x);
    if x.Record? {
      forall i | 0 <= i < |ToRecord(k')|
        ensures ToRecord(k)[i + 1].0 == ToRecord(k')[i].0
      {
      }
    } else {
      TodoNext(c, s, k, x);
    }
  }

  /** Nobody else has to record what comes from the hand or was to be recorded already. */
  lemma StillDisjoint(s: Store, L: Ledger, a: ActorId, k: Ctl, k': Ctl)
    requires OwnHand(L, a, k) && Inherits(k, k')
    ensures forall k2 :: Disjoint(k, k2) && TodoOpen(s, L, k2) ==> Disjoint(k', k2)
  {
  }

  lemma OwnTodo(c: Config, s: Store, L: Ledger, a: ActorId, k: Ctl, x: Action, t: Store, L': Ledger, k': Ctl)
    requires Guard(c, s, k, x) && t == Effect(c, s, k, x) && L' == Moved(c, s, a, k, x, L) && k' == Control(c, s, k, x)
    requires Seated(s, L, a, k, x) && OwnHand(L, a, k) && HandOpen(s, k) && TodoOpen(s, L, k)
    requires AllBooked(s, L) && AllTagged(c, s.q) && SetHolds(s.q.meta.Keys, L, Flying)
    ensures TodoOpen(t, L', k')
    ensures forall k2 :: Disjoint(k, k2) && TodoOpen(s, L, k2) ==> Disjoint(k', k2)
  {
    if x.Record? {
      RecordTodo(c, s, L, a, k);
      TodoInherited(c, s, k, x);
      StillDisjoint(s, L, a, k, k');
    } else if x.Recover? {
      ReportOpen(c, s, L, x.js, t, L', k');
      FlyingDisjoint(s, L, x.js, k');
    } else {
      ActionTodo(c, s, L, a, k, x, t, L', k');
      TodoInherited(c, s, k, x);
      StillDisjoint(s, L, a, k, k');
    }
  }

  /** What is taken from flight nobody else has to record. */
  lemma FlyingDisjoint(s: Store, L: Ledger, js: seq<JobId>, k': Ctl)
    requires BatchIn(L, js, Flying) && forall i :: 0 <= i < |ToRecord(k')| ==> ToRecord(k')[i].0 in js
    ensures forall k2 :: TodoOpen(s, L, k2) ==> Disjoint(k', k2)
  {
  }

  lemma OtherOpen(c: Config, s: State, L: Ledger, a: ActorId, x: Action, b: ActorId)
    requires Enabled(c, s, By(a, x)) && a != b && Hands(s, L) && AllOpen(s, L) && Seated(s.store, L, a, s.At(a), x)
    ensures HandOpen(Effect(c, s.store, s.At(a), x), s.At(b))
    ensures TodoOpen(Effect(c, s.store, s.At(a), x), Moved(c, s.store, a, s.At(a), x, L), s.At(b))
  {
    assert OwnHand(L, a, s.At(a)) && OwnHand(L, b, s.At(b));
    assert HandOpen(s.store, s.At(a)) && TodoOpen(s.store, L, s.At(a));
    assert HandOpen(s.store, s.At(b)) && TodoOpen(s.store, L, s.At(b));
    if x.Record? {
      if Hand(s.At(b)).Some? {
        InHand(L, b, s.At(b));
      }
      assert Disjoint(s.At(a), s.At(b));
      RecordOthers(c, s.store, L, a, s.At(a), s.At(b));
    } else {
      ActionOthers(c, s.store, L, a, s.At(a), x, s.At(b));
    }
  }

  lemma StaysDisjoint(s: State, L: Ledger, a: ActorId, k': Ctl, b: ActorId, d: ActorId, t: Store)
    requires AllOpen(s, L) && b != d
    requires forall k2 :: Disjoint(s.At(a), k2) && TodoOpen(s.store, L, k2) ==> Disjoint(k', k2)
    ensures var s' := State(t, s.actors[a := k']); Disjoint(s'.At(b), s'.At(d))
  {
    var s' := State(t, s.actors[a := k']);
    assert s'.At(b) == if b == a then k' else s.At(b);
    assert s'.At(d) == if d == a then k' else s.At(d);
    assert Disjoint(s.At(b), s.At(d)) && Disjoint(s.At(d), s.At(b));
    assert TodoOpen(s.store, L, s.At(b)) && TodoOpen(s.store, L, s.At(d));
    if d == a {
      assert Disjoint(k', s.At(b));
    }
  }

  lemma ByOpen(c: Config, s: State, L: Ledger, a: ActorId, x: Action, t: Store, L': Ledger, k': Ctl)
    requires Enabled(c, s, By(a, x)) && t == Effect(c, s.store, s.At(a), x)
    requires L' == Moved(c, s.store, a, s.At(a), x, L) && k' == Control(c, s.store, s.At(a), x)
    requires Hands(s, L) && Once(s, L) && Seated(s.store, L, a, s.At(a), x)
    requires AllTagged(c, s.store.q) && SetHolds(s.store.q.meta.Keys, L, Flying)
    ensures AllOpen(State(t, s.actors[a := k']), L')
  {
    var s' := State(t, s.actors[a := k']);
    assert OwnHand(L, a, s.At(a)) && HandOpen(s.store, s.At(a)) && TodoOpen(s.store, L, s.At(a));
    OwnTodo(c, s.store, L, a, s.At(a), x, t, L', k');
    forall b, d: ActorId | b != d
      ensures Disjoint(s'.At(b), s'.At(d))
    {
      StaysDisjoint(s, L, a, k', b, d, t);
    }
    ActionHandOpen(c, s.store, L, a, s.At(a), x);
    forall b: ActorId
      ensures HandOpen(t, s'.At(b)) && TodoOpen(t, L', s'.At(b))
    {
      if b != a {
        OtherOpen(c, s, L, a, x, b);
      }
    }
  }

  lemma ByBooked(c: Config, s: Store, L: Ledger, a: ActorId, k: Ctl, x: Action, t: Store, L': Ledger)
    requires Guard(c, s, k, x) && t == Effect(c, s, k, x) && L' == Moved(c, s, a, k, x, L)
    requires Seated(s, L, a, k, x) && OwnHand(L, a, k) && HandOpen(s, k) && TodoOpen(s, L, k) && AllBooked(s, L)
    ensures AllBooked(t, L')
  {
    forall g: GroupId
      ensures Booked(t, L', g)
    {
      ActionBooked(c, s, L, a, k, x, t, L', g);
    }
  }

  /** The group counter knows every submitted job. */
  ghost function JobsOf(s: Store, g: GroupId): set<JobId> {
    set j | j in s.q.groups && s.q.groups[j] == g
  }

  ghost predicate Totals(s: Store) {
    forall g: GroupId :: s.fair.MetaOf(g).total == |JobsOf(s, g)|
  }

  lemma TotalKept(c: Config, s: Store, k: Ctl, x: Action, g: GroupId)
    requires Guard(c, s, k, x)
    ensures Effect(c, s, k, x).fair.MetaOf(g).total == s.fair.MetaOf(g).total
  {
    if x.Dispatch? {
      PipelineResults.MoveFrame(s, x.js);
    }
  }

  lemma StepTotals(c: Config, s: State, e: Event)
    requires Enabled(c, s, e) && Totals(s.store)
    ensures Totals(Next(c, s, e).store)
  {
    var s' := Next(c, s, e);
    forall g: GroupId
      ensures s'.store.fair.MetaOf(g).total == |JobsOf(s'.store, g)|
    {
      if e.By? {
        TotalKept(c, s.store, s.At(e.a), e.x, g);
        PipelineResults.GroupsKept(c, s.store, s.At(e.a), e.x);
      } else if e.Submit? && e.g == g {
        SubmitJobs(s.store, s'.store, e.j, g);
      } else if e.Submit? {
        assert JobsOf(s'.store, g) == JobsOf(s.store, g);
      }
    }
  }

  lemma SubmitJobs(s: Store, s': Store, j: JobId, g: GroupId)
    requires j !in s.q.groups && s'.q.groups == s.q.groups[j := g]
    ensures |JobsOf(s', g)| == |JobsOf(s, g)| + 1
  {
    forall i
      ensures i in JobsOf(s', g) <==> i in JobsOf(s, g) + {j}
    {
    }
    assert JobsOf(s', g) == JobsOf(s, g) + {j};
  }

  lemma EnvOnce(c: Config, s: State, L: Ledger, e: Event)
    requires L.Keys == s.store.q.groups.Keys && Hands(s, L) && Once(s, L) && Enabled(c, s, e) && !e.By?
    ensures Once(Next(c, s, e), MovedBy(c, s, e, L))
  {
    var s', L' := Next(c, s, e), MovedBy(c, s, e, L);
    assert forall g: GroupId :: s'.store.Tally(g) == s.store.Tally(g);
    forall g: GroupId
      ensures Booked(s'.store, L', g)
    {
      assert Booked(s.store, L, g);
    }
    forall a: ActorId
      ensures HandOpen(s'.store, s'.At(a)) && TodoOpen(s'.store, L', s'.At(a))
    {
      EnvOpen(s.store, L, s'.store, L', a, s.At(a));
    }
    forall a, b: ActorId | a != b
      ensures Disjoint(s'.At(a), s'.At(b))
    {
      assert s'.At(a) == s.At(a) && s'.At(b) == s.At(b);
    }
  }

  lemma EnvOpen(s: Store, L: Ledger, s': Store, L': Ledger, a: ActorId, k: Ctl)
    requires OwnHand(L, a, k) && HandOpen(s, k) && TodoOpen(s, L, k)
    requires forall j :: j in L ==> j in L' && L'[j] == L[j] && s'.q.GroupOf(j) == s.q.GroupOf(j)
    requires forall g: GroupId :: s'.Tally(g) == s.Tally(g)
    ensures HandOpen(s', k) && TodoOpen(s', L', k)
  {
  }

  lemma StepOnce(c: Config, s: State, L: Ledger, e: Event)
    requires Consistent(c, s, L) && AllTagged(c, s.store.q) && Once(s, L) && Enabled(c, s, e)
    ensures Once(Next(c, s, e), MovedBy(c, s, e, L))
  {
    if e.By? {
      var k := s.At(e.a);
      assert OwnHand(L, e.a, k) && OwnRun(c, s.store, L, k) && HandOpen(s.store, k) && TodoOpen(s.store, L, k);
      Seating(c, s.store, L, e.a, k, e.x);
      var t, L', k' := Effect(c, s.store, k, e.x), Moved(c, s.store, e.a, k, e.x, L), Control(c, s.store, k, e.x);
      ByBooked(c, s.store, L, e.a, k, e.x, t, L');
      ByOpen(c, s, L, e.a, e.x, t, L', k');
    } else {
      EnvOnce(c, s, L, e);
    }
  }

  // ---- Whole runs ----

  /** A punctual run in which what pops store is tagged. */
  ghost predicate TaggedRun(c: Config, s: State, es: seq<Event>, s': State)
    decreases |es|
  {
    if es == [] then s == s'
    else
      && Enabled(c, s, es[0]) && Punctual(c, s, es[0]) && TaggedEvent(c, s, es[0])
      && TaggedRun(c, Next(c, s, es[0]), es[1..], s')
  }

  /** What a tagged run keeps. */
  ghost predicate Books(c: Config, s: State, L: Ledger) {
    Consistent(c, s, L) && AllTagged(c, s.store.q) && Once(s, L) && Totals(s.store)
  }

  lemma StepBooks(c: Config, s: State, L: Ledger, e: Event)
    requires InTime(c) && Books(c, s, L) && Enabled(c, s, e) && Punctual(c, s, e) && TaggedEvent(c, s, e)
    ensures Books(c, Next(c, s, e), MovedBy(c, s, e, L))
  {
    StepKeeps(c, s, L, e);
    StepTagged(c, s, L, e);
    StepOnce(c, s, L, e);
    StepTotals(c, s, e);
  }

  lemma {:induction false} RunOnce(c: Config, s: State, L: Ledger, es: seq<Event>, s': State) returns (L': Ledger)
    requires InTime(c) && Books(c, s, L) && TaggedRun(c, s, es, s')
    ensures Books(c, s', L')
    decreases |es|
  {
    L' := L;
    if es != [] {
      StepBooks(c, s, L, es[0]);
      L' := RunOnce(c, Next(c, s, es[0]), MovedBy(c, s, es[0], L), es[1..], s');
    }
  }

  lemma StartBooks(c: Config, now: nat)
    ensures Books(c, Start(now), map[])
  {
    StartConsistent(c, now);
  }

  lemma {:induction false} TaggedIsRun(c: Config, s: State, es: seq<Event>, s': State)
    requires TaggedRun(c, s, es, s')
    ensures Run(c, s, es, s')
    decreases |es|
  {
    if es != [] {
      TaggedIsRun(c, Next(c, s, es[0]), es[1..], s');
    }
  }

  /** Distinct members of a set, as many as it has, are all of it. */
  lemma {:induction false} Covers(ids: seq<JobId>, all: set<JobId>)
    requires NoDup(ids) && (forall i :: 0 <= i < |ids| ==> ids[i] in all) && |all| <= |ids|
    ensures forall j :: j in all ==> j in ids
  {
    if ids != [] {
      var init, last := ids[..|ids| - 1], ids[|ids| - 1];
      Covers(init, all - {last});
      assert ids == init + [last];
    }
  }

  /** One result per job: whoever is told that group g is complete finds exactly one result for each job
      of g, and no other result. */
  lemma OneResultPerJob(c: Config, now: nat, es: seq<Event>, s: State, a: ActorId, g: GroupId)
    requires InTime(c)
    requires TaggedRun(c, Start(now), es, s)
    requires Enabled(c, s, By(a, Acknowledge))
    requires PipelineResults.AwaitsAck(s.store.q.groups, s.At(a)) == Some(g) && s.store.fair.AckCompletes(g)
    ensures NoDup(Ids(s.store, g))
    ensures forall j :: j in Ids(s.store, g) <==> j in JobsOf(s.store, g)
    ensures |s.store.Tally(g).results| == s.store.fair.MetaOf(g).total
  {
    ReachedBooks(c, now, es, s, g);
    TaggedIsRun(c, Start(now), es, s);
    PipelineResults.CompleteMeansAllRecorded(c, now, es, s, a, g);
    Covers(Ids(s.store, g), JobsOf(s.store, g));
    NoMoreThan(Ids(s.store, g), JobsOf(s.store, g));
  }

  /** In every state of a tagged run a group's results are about distinct jobs of the group. */
  lemma ReachedBooks(c: Config, now: nat, es: seq<Event>, s: State, g: GroupId)
    requires InTime(c)
    requires TaggedRun(c, Start(now), es, s)
    ensures NoDup(Ids(s.store, g)) && |JobsOf(s.store, g)| == s.store.fair.MetaOf(g).total
    ensures forall j :: j in Ids(s.store, g) ==> j in JobsOf(s.store, g)
  {
    StartBooks(c, now);
    var L := RunOnce(c, Start(now), map[], es, s);
    BooksAre(s.store, L, g);
  }

  lemma BooksAre(s: Store, L: Ledger, g: GroupId)
    requires AllBooked(s, L) && Totals(s) && L.Keys == s.q.groups.Keys
    ensures NoDup(Ids(s, g)) && |JobsOf(s, g)| == s.fair.MetaOf(g).total
    ensures forall j :: j in Ids(s, g) ==> j in JobsOf(s, g)
  {
    assert Booked(s, L, g);
  }

  lemma {:induction false} NoMoreThan(ids: seq<JobId>, all: set<JobId>)
    requires NoDup(ids) && forall i :: 0 <= i < |ids| ==> ids[i] in all
    ensures |ids| <= |all|
  {
    if ids != [] {
      NoMoreThan(ids[..|ids| - 1], all - {ids[|ids| - 1]});
    }
  }
}
