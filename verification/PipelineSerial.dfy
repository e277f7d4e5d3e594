/** Dequeues that do not overlap: a worker looks at the ready queue, peeks, reads metadata and pops in separate
    commands. When no worker begins while another is between these, what each pop stores is right; so it is with a
    single worker. */
module PipelineSerial {
  import opened Base
  import opened FairQueue
  import opened ReliableQueue
  import opened SortedSet
  import opened Pipeline
  import opened PipelinePlaces
  import opened PipelineRetries
  import opened PipelineStale
  import PipelineOnce
  import PipelineResults

  /** Between the look at the ready queue and the pop. */
  predicate Dequeuing(k: Ctl) {
    k.Looking? || k.Peeked? || k.Armed?
  }

  /** A dequeue begins only while no other is under way. */
  ghost predicate SerialEvent(s: State, e: Event) {
    e.By? && e.x.CheckReady? ==> forall a :: !Dequeuing(s.At(a))
  }

  ghost predicate SerialRun(c: Config, s: State, es: seq<Event>, s': State)
    decreases |es|
  {
    if es == [] then s == s'
    else
      && Enabled(c, s, es[0]) && Punctual(c, s, es[0]) && SerialEvent(s, es[0])
      && SerialRun(c, Next(c, s, es[0]), es[1..], s')
  }

  /** What a dequeuing actor has read of the queue is so. */
  predicate UpToDate(s: Store, k: Ctl) {
    Dequeuing(k) ==>
      && s.q.ready != []
      && (k.Peeked? ==> k.front == Some(s.q.ready[0]))
      && (k.Armed? ==> k.meta == TrueMeta(s, s.q.ready[0]))
  }

  ghost predicate OneAtATime(s: State) {
    && (forall a :: UpToDate(s.store, s.At(a)))
    && (forall a, b :: Dequeuing(s.At(a)) && Dequeuing(s.At(b)) ==> a == b)
  }

  /** The first ready job stays first, with the same metadata. */
  ghost predicate SameFront(s: Store, s': Store) {
    s.q.ready != [] ==>
      s'.q.ready != [] && s'.q.ready[0] == s.q.ready[0] && TrueMeta(s', s'.q.ready[0]) == TrueMeta(s, s.q.ready[0])
  }

  lemma SameFrontKeeps(s: Store, s': Store, k: Ctl)
    requires SameFront(s, s') && UpToDate(s, k)
    ensures UpToDate(s', k)
  {
  }

  lemma {:induction false} MoveAppends(s: Store, js: seq<JobId>)
    ensures s.q.ready <= s.Move(js).q.ready
  {
    if js != [] {
      MoveAppends(s, js[..|js| - 1]);
    }
  }

  /** Only Pop takes a job from the head of the ready list. */
  lemma ActionAppends(c: Config, s: Store, k: Ctl, x: Action)
    requires Guard(c, s, k, x) && !x.Pop? && (x.Recover? ==> NoDup(x.js))
    ensures s.q.ready <= Effect(c, s, k, x).q.ready
  {
    if x.Dispatch? {
      MoveAppends(s, x.js);
    } else if x.Recover? {
      RecoverSplits(s.q, x.js, s.now, c.orphanMaxRetry);
    }
  }

  lemma ActionFront(c: Config, s: Store, L: Ledger, a: ActorId, k: Ctl, x: Action, s': Store)
    requires Guard(c, s, k, x) && s' == Effect(c, s, k, x) && !x.Pop? && Seated(s, L, a, k, x)
    requires ListHolds(s.q.ready, L, OnReady)
    ensures SameFront(s, s')
  {
    if s.q.ready != [] {
      var j := s.q.ready[0];
      assert j in s.q.ready;
      ActionAppends(c, s, k, x);
      assert s'.q.ready[0] == j;
      PipelineResults.GroupsKept(c, s, k, x);
      if x.Dispatch? {
        PipelineResults.MoveFrame(s, x.js);
      } else if x.Recover? {
        RecoverFrame(s.q, x.js, s.now, c.orphanMaxRetry, j);
      } else {
        assert j !in Touched(s, k, x);
        OthersSameCounts(c, s, k, x, j);
      }
    }
  }

  /** Before the pop, a dequeuing actor only reads. */
  lemma ReadsOnly(c: Config, s: Store, k: Ctl, x: Action)
    requires Guard(c, s, k, x) && (x.CheckReady? || Dequeuing(k)) && Dequeuing(Control(c, s, k, x))
    ensures x.CheckReady? || x.Peek? || x.ReadMeta?
  {
  }

  /** Where a dequeuing actor's own step leaves it. */
  lemma OwnUpToDate(c: Config, s: Store, k: Ctl, x: Action, s': Store)
    requires Guard(c, s, k, x) && s' == Effect(c, s, k, x) && UpToDate(s, k) && SameFront(s, s')
    ensures UpToDate(s', Control(c, s, k, x))
  {
    if Dequeuing(Control(c, s, k, x)) {
      BeginsOnly(c, s, k, x);
      ReadsOnly(c, s, k, x);
    }
  }

  lemma BeginsOnly(c: Config, s: Store, k: Ctl, x: Action)
    requires Guard(c, s, k, x) && Dequeuing(Control(c, s, k, x))
    ensures x.CheckReady? || Dequeuing(k)
  {
  }

  lemma PopEnds(c: Config, s: Store, k: Ctl)
    requires Guard(c, s, k, Pop)
    ensures !Dequeuing(Control(c, s, k, Pop))
  {
  }

  /** A pop ends the only dequeue; any other step leaves the front as it is. */
  lemma ByUpToDate(c: Config, s: State, L: Ledger, a: ActorId, x: Action, s': State, b: ActorId)
    requires Consistent(c, s, L) && OneAtATime(s) && Enabled(c, s, By(a, x)) && s' == Next(c, s, By(a, x))
    ensures UpToDate(s'.store, s'.At(b))
  {
    var k := s.At(a);
    assert OwnHand(L, a, k) && OwnRun(c, s.store, L, k) && Timely(c, s.store.now, k);
    assert UpToDate(s.store, k) && UpToDate(s.store, s.At(b));
    if x.Pop? {
      PopEnds(c, s.store, k);
      assert s'.At(b) == if b == a then Control(c, s.store, k, x) else s.At(b);
    } else {
      Seating(c, s.store, L, a, k, x);
      ActionFront(c, s.store, L, a, k, x, s'.store);
      OwnUpToDate(c, s.store, k, x, s'.store);
      SameFrontKeeps(s.store, s'.store, s.At(b));
    }
  }

  lemma ByAlone(c: Config, s: State, a: ActorId, x: Action, s': State)
    requires OneAtATime(s) && Enabled(c, s, By(a, x)) && s' == Next(c, s, By(a, x)) && SerialEvent(s, By(a, x))
    ensures forall b, d :: Dequeuing(s'.At(b)) && Dequeuing(s'.At(d)) ==> b == d
  {
    forall b | Dequeuing(s'.At(b))
      ensures if x.CheckReady? then b == a else Dequeuing(s.At(b))
    {
      assert s'.At(b) == if b == a then Control(c, s.store, s.At(a), x) else s.At(b);
      if b == a {
        BeginsOnly(c, s.store, s.At(a), x);
      }
    }
  }

  lemma EnvFront(c: Config, s: State, L: Ledger, e: Event, s': State)
    requires Housed(s.store, L) && Enabled(c, s, e) && !e.By? && s' == Next(c, s, e)
    ensures s'.actors == s.actors && SameFront(s.store, s'.store)
  {
    if s.store.q.ready != [] {
      assert s.store.q.ready[0] in s.store.q.ready;
    }
  }

  lemma StepSerial(c: Config, s: State, L: Ledger, e: Event)
    requires Consistent(c, s, L) && OneAtATime(s) && Enabled(c, s, e) && SerialEvent(s, e)
    ensures OneAtATime(Next(c, s, e)) && RightEvent(s, e)
  {
    var s' := Next(c, s, e);
    if e.By? {
      assert UpToDate(s.store, s.At(e.a));
      forall b
        ensures UpToDate(s'.store, s'.At(b))
      {
        ByUpToDate(c, s, L, e.a, e.x, s', b);
      }
      ByAlone(c, s, e.a, e.x, s');
    } else {
      EnvFront(c, s, L, e, s');
      forall b
        ensures s'.At(b) == s.At(b) && UpToDate(s'.store, s'.At(b))
      {
        SameFrontKeeps(s.store, s'.store, s.At(b));
      }
    }
  }

  lemma {:induction false} RunSerial(c: Config, s: State, L: Ledger, es: seq<Event>, s': State)
    requires InTime(c) && Consistent(c, s, L) && OneAtATime(s) && SerialRun(c, s, es, s')
    ensures RightRun(c, s, es, s')
    decreases |es|
  {
    if es != [] {
      StepKeeps(c, s, L, es[0]);
      StepSerial(c, s, L, es[0]);
      RunSerial(c, Next(c, s, es[0]), MovedBy(c, s, es[0], L), es[1..], s');
    }
  }

  /** Where dequeues do not overlap, every pop stores right metadata. */
  lemma SerialIsRight(c: Config, now: nat, es: seq<Event>, s: State)
    requires InTime(c) && SerialRun(c, Start(now), es, s)
    ensures RightRun(c, Start(now), es, s)
  {
    StartConsistent(c, now);
    RunSerial(c, Start(now), map[], es, s);
  }

  /** All dequeues are those of actor a. */
  predicate Sole(a: ActorId, es: seq<Event>) {
    forall i :: 0 <= i < |es| && es[i].By? && es[i].x.CheckReady? ==> es[i].a == a
  }

  lemma {:induction false} SoleIsSerial(c: Config, s: State, a: ActorId, es: seq<Event>, s': State)
    requires PunctualRun(c, s, es, s') && Sole(a, es) && forall b :: Dequeuing(s.At(b)) ==> b == a
    ensures SerialRun(c, s, es, s')
    decreases |es|
  {
    if es != [] {
      var m := Next(c, s, es[0]);
      forall b | Dequeuing(m.At(b))
        ensures b == a
      {
        if es[0].By? && es[0].a == b {
          BeginsOnly(c, s.store, s.At(b), es[0].x);
        } else {
          assert m.At(b) == s.At(b);
        }
      }
      SoleIsSerial(c, m, a, es[1..], s');
    }
  }

  /** With a single worker both promises hold in every punctual run: no job is executed more often than the limits
      allow, and a group's results are about different jobs of its own. */
  lemma SoleWorker(c: Config, now: nat, es: seq<Event>, s: State, a: ActorId, j: JobId, g: GroupId)
    requires InTime(c) && PunctualRun(c, Start(now), es, s) && Sole(a, es)
    ensures Runs(s.store, j) <= MaxRetry(c) + 1
    ensures OwnResults(s.store, g)
  {
    SoleIsSerial(c, Start(now), a, es, s);
    SerialIsRight(c, now, es, s);
    RightIsSparing(c, Start(now), es, s);
    ExecutionBound(c, now, es, s, j);
    RightIsTagged(c, Start(now), es, s);
    PipelineOnce.ReachedBooks(c, now, es, s, g);
  }
}
