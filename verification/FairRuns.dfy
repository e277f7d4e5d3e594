/** Whole runs of the fair queue: completeness, first-in-first-out order and bounded overtaking. */
module FairRuns {
  import opened Base
  import opened FairQueue
  import Priority

  /** One script call, or the passing of time. */
  datatype Event =
    | Submit(g: GroupId, j: JobId, base: real, l: Level)
    | Serve(l: Level, g: GroupId)
    | Poll
    | Done(g: GroupId)
    | Tick(d: nat)

  /** The queue, Redis's clock, and per group every job ever enqueued and ever dequeued. */
  datatype World = World(
    fair: Fair,
    now: nat,
    enqueued: map<GroupId, seq<JobId>>,
    dequeued: map<GroupId, seq<JobId>>)

  const START := World(FairQueue.EMPTY, 0, map[], map[])

  ghost predicate Enabled(w: World, e: Event) {
    match e
    case Serve(l, g) => w.fair.Serves(l, g)
    case Poll => w.fair.Drained()
    case _ => true
  }

  ghost function Next(alpha: real, w: World, e: Event): World
    requires Enabled(w, e)
  {
    match e
    case Submit(g, j, base, l) =>
      w.(fair := w.fair.Enqueue(alpha, w.now, g, j, base, l),
         enqueued := w.enqueued[g := ListAt(w.enqueued, g) + [j]])
    case Serve(l, g) =>
      w.(fair := w.fair.Dequeue(alpha, w.now, l, g),
         dequeued := w.dequeued[g := ListAt(w.dequeued, g) + [w.fair.Pending(g)[0]]])
    case Poll => w.(fair := w.fair.(scores := map[]))
    case Done(g) => w.(fair := w.fair.Ack(g))
    case Tick(d) => w.(now := w.now + d)
  }

  ghost predicate Run(alpha: real, w: World, es: seq<Event>, w': World)
    decreases |es|
  {
    if es == [] then w == w' else Enabled(w, es[0]) && Run(alpha, Next(alpha, w, es[0]), es[1..], w')
  }

  // ---- What every reachable state satisfies ----

  ghost predicate Listed(f: Fair, g: GroupId) {
    exists l :: (l, g) in f.scores
  }

  ghost predicate AllListed(f: Fair) {
    forall g: GroupId :: f.Pending(g) != [] ==> Listed(f, g)
  }

  lemma FetchListed(f: Fair, alpha: real, now: nat, l: Level, g: GroupId)
    requires AllListed(f) && f.Serves(l, g)
    ensures AllListed(f.Dequeue(alpha, now, l, g))
  {
    var f' := f.Dequeue(alpha, now, l, g);
    forall h: GroupId | f'.Pending(h) != []
      ensures Listed(f', h)
    {
      if h == g {
        assert (l, g) in f'.scores;
      } else {
        assert f.Pending(h) != [] && Listed(f, h);
        var k :| (k, h) in f.scores;
        assert !f.Skipped(l, g, (k, h));
        assert (k, h) in f'.scores;
      }
    }
  }

  lemma SubmitListed(f: Fair, alpha: real, now: nat, g: GroupId, j: JobId, base: real, l: Level)
    requires AllListed(f)
    ensures AllListed(f.Enqueue(alpha, now, g, j, base, l))
  {
    var f' := f.Enqueue(alpha, now, g, j, base, l);
    forall h: GroupId | f'.Pending(h) != []
      ensures Listed(f', h)
    {
      if h == g {
        assert (l, g) in f'.scores;
      } else {
        assert f.Pending(h) != [] && Listed(f, h);
        var k :| (k, h) in f.scores;
        assert (k, h) in f'.scores;
      }
    }
  }

  lemma PollListed(f: Fair)
    requires AllListed(f) && f.Drained()
    ensures AllListed(f.(scores := map[]))
  {
    var f' := f.(scores := map[]);
    forall h: GroupId
      ensures f'.Pending(h) == []
    {
      assert f.Pending(h) != [] ==> Listed(f, h);
    }
  }

  lemma SameListed(f: Fair, f': Fair)
    requires AllListed(f) && f'.scores == f.scores && f'.lists == f.lists
    ensures AllListed(f')
  {
    forall h: GroupId | f'.Pending(h) != []
      ensures Listed(f', h)
    {
      assert f.Pending(h) != [];
      var k :| (k, h) in f.scores;
    }
  }

  /** What was enqueued is what was dequeued and what is pending, in this order. */
  ghost predicate Conserved(w: World) {
    forall g: GroupId ::
      && ListAt(w.enqueued, g) == ListAt(w.dequeued, g) + w.fair.Pending(g)
      && |ListAt(w.enqueued, g)| <= w.fair.MetaOf(g).total
  }

  ghost predicate Inv(w: World) {
    AllListed(w.fair) && Conserved(w)
  }

  lemma StepConserves(alpha: real, w: World, e: Event)
    requires Inv(w) && Enabled(w, e)
    ensures Conserved(Next(alpha, w, e))
  {
    var w' := Next(alpha, w, e);
    forall g: GroupId
      ensures ListAt(w'.enqueued, g) == ListAt(w'.dequeued, g) + w'.fair.Pending(g)
      ensures |ListAt(w'.enqueued, g)| <= w'.fair.MetaOf(g).total
    {
      assert ListAt(w.enqueued, g) == ListAt(w.dequeued, g) + w.fair.Pending(g);
      assert |ListAt(w.enqueued, g)| <= w.fair.MetaOf(g).total;
    }
  }

  lemma StepKeeps(alpha: real, w: World, e: Event)
    requires Inv(w) && Enabled(w, e)
    ensures Inv(Next(alpha, w, e))
  {
    StepConserves(alpha, w, e);
    match e
    case Submit(g, j, base, l) => SubmitListed(w.fair, alpha, w.now, g, j, base, l);
    case Serve(l, g) => FetchListed(w.fair, alpha, w.now, l, g);
    case Poll => PollListed(w.fair);
    case _ => SameListed(w.fair, Next(alpha, w, e).fair);
  }

  lemma {:induction false} RunKeeps(alpha: real, w: World, es: seq<Event>, w': World)
    requires Inv(w) && Run(alpha, w, es, w')
    ensures Inv(w')
    decreases |es|
  {
    if es != [] {
      StepKeeps(alpha, w, es[0]);
      RunKeeps(alpha, Next(alpha, w, es[0]), es[1..], w');
    }
  }

  /** In every reachable state the jobs taken from a group are, in order, the first ones it was given. */
  lemma DequeuedIsPrefix(alpha: real, es: seq<Event>, w: World, g: GroupId)
    requires Run(alpha, START, es, w)
    ensures ListAt(w.dequeued, g) <= ListAt(w.enqueued, g)
    ensures ListAt(w.enqueued, g)[|ListAt(w.dequeued, g)|..] == w.fair.Pending(g)
  {
    RunKeeps(alpha, START, es, w);
    assert ListAt(w.enqueued, g) == ListAt(w.dequeued, g) + w.fair.Pending(g);
  }

  /** In every reachable state a dequeue answers null exactly when no group has a job waiting. */
  lemma DequeueComplete(alpha: real, es: seq<Event>, w: World)
    requires Run(alpha, START, es, w)
    ensures w.fair.Drained() <==> forall g: GroupId :: w.fair.Pending(g) == []
    ensures !w.fair.Drained() ==> exists l, g :: w.fair.Serves(l, g)
  {
    RunKeeps(alpha, START, es, w);
    if w.fair.Drained() {
      forall g: GroupId
        ensures w.fair.Pending(g) == []
      {
        assert w.fair.Pending(g) != [] ==> Listed(w.fair, g);
      }
    } else {
      var k :| k in w.fair.scores && w.fair.Pending(k.1) != [];
      var busy := set s | s in w.fair.scores && w.fair.Pending(s.1) != [];
      BestExists(w.fair, busy, k);
    }
  }

  /** In every reachable state: while a group listed at HIGH has a job, a HIGH group is served; while one listed at
      NORMAL has, no LOW group is; and within the level nobody with a job has a higher score than the one served. */
  lemma HighestLevelFirst(alpha: real, es: seq<Event>, w: World, l: Level, g: GroupId, h: GroupId)
    requires Run(alpha, START, es, w) && w.fair.Serves(l, g) && w.fair.Pending(h) != []
    ensures (HIGH, h) in w.fair.scores ==> l == HIGH
    ensures (NORMAL, h) in w.fair.scores ==> l == HIGH || l == NORMAL
    ensures (l, h) in w.fair.scores ==> w.fair.scores[(l, h)] <= w.fair.scores[(l, g)]
    ensures exists k :: (k, h) in w.fair.scores
  {
    RunKeeps(alpha, START, es, w);
    ServesHighestFirst(w.fair, l, g);
    assert Listed(w.fair, h);
  }

  // ---- What the group hash counts ----

  /** How many jobs the events submit to group g. */
  function Submits(es: seq<Event>, g: GroupId): nat {
    if es == [] then 0 else (if es[0].Submit? && es[0].g == g then 1 else 0) + Submits(es[1..], g)
  }

  /** How many acknowledgements the events bring to group g. */
  function Acks(es: seq<Event>, g: GroupId): nat {
    if es == [] then 0 else (if es[0] == Done(g) then 1 else 0) + Acks(es[1..], g)
  }

  lemma {:induction false} NoneSubmitted(alpha: real, w: World, es: seq<Event>, w': World, g: GroupId)
    requires Run(alpha, w, es, w') && w.fair.MetaOf(g).total == 0 && Submits(es, g) == 0
    ensures w'.fair.MetaOf(g).total == 0
    decreases |es|
  {
    if es != [] {
      NoneSubmitted(alpha, Next(alpha, w, es[0]), es[1..], w', g);
    }
  }

  lemma {:induction false} HashCounts(alpha: real, w: World, es: seq<Event>, w': World, g: GroupId)
    requires Run(alpha, w, es, w') && w.fair.MetaOf(g).total >= 1
    ensures var m := w.fair.MetaOf(g);
      w'.fair.MetaOf(g) == GroupMeta(m.base, m.total + Submits(es, g), m.done + Acks(es, g))
    decreases |es|
  {
    if es != [] {
      HashCounts(alpha, Next(alpha, w, es[0]), es[1..], w', g);
    }
  }

  /** A group's hash holds the base priority of its first job, the number of its jobs, and the number of its
      acknowledgements since the first job; and the next acknowledgement is told that the group is complete exactly
      if it is at least the n-th since then, for n jobs. */
  lemma LastAckCompletes(alpha: real, before: seq<Event>, w0: World, first: Event, after: seq<Event>, w: World)
    requires Run(alpha, START, before, w0) && first.Submit? && Submits(before, first.g) == 0
    requires Run(alpha, Next(alpha, w0, first), after, w)
    ensures w.fair.MetaOf(first.g) == GroupMeta(first.base, Submits([first] + after, first.g), Acks(after, first.g))
    ensures w.fair.AckCompletes(first.g) <==> Acks(after, first.g) + 1 >= Submits([first] + after, first.g)
  {
    NoneSubmitted(alpha, START, before, w0, first.g);
    HashCounts(alpha, Next(alpha, w0, first), after, w, first.g);
    assert ([first] + after)[1..] == after;
  }

  /** Slot a is read before slot b by a scan. */
  ghost predicate ScannedBefore(f: Fair, a: Slot, b: Slot)
    requires a in f.scores && b in f.scores
  {
    Rank(a.0) < Rank(b.0) || (a.0 == b.0 && f.Before(a.0, a.1, b.1))
  }

  /** Descends from a slot with a job to the first such slot. */
  lemma BestExists(f: Fair, busy: set<Slot>, k: Slot)
    requires busy == set s | s in f.scores && f.Pending(s.1) != []
    requires k in busy
    ensures exists l, g :: f.Serves(l, g)
  {
    var best, left := k, busy - {k};
    while left != {}
      invariant best in busy && best !in left && left <= busy
      invariant forall s :: s in busy && s !in left && s != best ==> ScannedBefore(f, best, s)
    {
      var s :| s in left;
      left := left - {s};
      if ScannedBefore(f, s, best) {
        best := s;
      } else {
        assert Rank(best.0) == Rank(s.0) ==> best.0 == s.0;
      }
    }
    forall s | s in f.scores && ScannedBefore(f, s, best)
      ensures f.Pending(s.1) == []
    {
      if s in busy {
        assert false;
      }
    }
    assert best == (best.0, best.1);
    assert f.Serves(best.0, best.1);
  }

  /** Completeness the other way round: what a dequeue serves is unique, so the order is total. */
  lemma ServesUnique(f: Fair, l: Level, g: GroupId, l': Level, g': GroupId)
    requires f.Serves(l, g) && f.Serves(l', g')
    ensures l == l' && g == g'
  {
  }

  // ---- Bounded overtaking ----

  /** The groups that outrank g at level l. */
  ghost function Ahead(f: Fair, l: Level, g: GroupId): set<GroupId>
    requires (l, g) in f.scores
  {
    set k | k in f.scores && k.0 == l && k.1 != g && f.Before(l, k.1, g) :: k.1
  }

  ghost function GroupsAt(f: Fair, l: Level): set<GroupId> {
    set k | k in f.scores && k.0 == l :: k.1
  }

  /** No priority base above `base`, no group of more than `total` jobs, and at least one job
      counted for every group that has jobs waiting. */
  ghost predicate Bounded(f: Fair, base: real, total: nat) {
    forall g: GroupId ::
      && (1 <= f.MetaOf(g).total ==> f.MetaOf(g).base <= base && f.MetaOf(g).total <= total)
      && (f.Pending(g) != [] ==> 1 <= f.MetaOf(g).total)
  }

  ghost predicate EventBounded(f: Fair, e: Event, base: real, total: nat) {
    e.Submit? ==> e.base <= base && f.MetaOf(e.g).total < total
  }

  /** From this moment on every newly computed score is below the waiting group's score. */
  ghost predicate Overdue(alpha: real, w: World, l: Level, g: GroupId, base: real, total: nat)
    requires (l, g) in w.fair.scores
  {
    w.now as real > base + Priority.MaxBoost(alpha, total) - w.fair.scores[(l, g)]
  }

  ghost predicate Waits(alpha: real, w: World, l: Level, g: GroupId, base: real, total: nat) {
    && (l, g) in w.fair.scores
    && w.fair.Pending(g) != []
    && Bounded(w.fair, base, total)
    && Overdue(alpha, w, l, g, base, total)
  }

  /** The event neither enqueues a job of g nor serves g. */
  predicate PassesBy(e: Event, g: GroupId) {
    (e.Submit? ==> e.g != g) && (e.Serve? ==> e.g != g)
  }

  /** A dequeue that is not taken by a level above l. */
  function Turn(e: Event, l: Level): nat {
    if e.Serve? && Rank(l) <= Rank(e.l) then 1 else 0
  }

  function Turns(es: seq<Event>, l: Level): nat {
    if es == [] then 0 else Turn(es[0], l) + Turns(es[1..], l)
  }

  lemma ServeWaits(alpha: real, w: World, l: Level, g: GroupId, base: real, total: nat, e: Event, f': Fair)
    requires Waits(alpha, w, l, g, base, total) && Enabled(w, e) && PassesBy(e, g) && e.Serve?
    requires f' == Next(alpha, w, e).fair
    ensures Waits(alpha, Next(alpha, w, e), l, g, base, total)
    ensures f'.scores[(l, g)] == w.fair.scores[(l, g)]
  {
    var f := w.fair;
    assert !f.Skipped(e.l, e.g, (l, g));
    forall x: GroupId
      ensures f'.MetaOf(x) == f.MetaOf(x)
      ensures f'.Pending(x) != [] ==> 1 <= f'.MetaOf(x).total
    {
      assert f'.Pending(x) != [] ==> f.Pending(x) != [];
      assert f.Pending(x) != [] ==> 1 <= f.MetaOf(x).total;
    }
  }

  lemma ServeAhead(alpha: real, w: World, l: Level, g: GroupId, base: real, total: nat, e: Event, f': Fair)
    requires Waits(alpha, w, l, g, base, total) && Enabled(w, e) && PassesBy(e, g) && e.Serve?
    requires f' == Next(alpha, w, e).fair
    requires (l, g) in f'.scores && f'.scores[(l, g)] == w.fair.scores[(l, g)]
    ensures Ahead(f', l, g) <= Ahead(w.fair, l, g)
    ensures Rank(l) <= Rank(e.l) ==> e.g in Ahead(w.fair, l, g) && e.g !in Ahead(f', l, g)
  {
    var f, h := w.fair, e.g;
    var m := f.MetaOf(h);
    assert f.Pending(h) != [] ==> 1 <= m.total;
    Priority.ScoreBound(alpha, w.now, m.base, m.total, m.done, base, total);
    if Rank(l) <= Rank(e.l) {
      assert e.l == l;
      assert f.Before(l, h, g);
    }
  }

  /** A turn spent on another group takes that group out of those ahead of g, for good. */
  lemma TurnOvertakesOnce(alpha: real, w: World, l: Level, g: GroupId, base: real, total: nat, e: Event)
    requires Waits(alpha, w, l, g, base, total) && Enabled(w, e) && PassesBy(e, g) && e.Serve?
    ensures Waits(alpha, Next(alpha, w, e), l, g, base, total)
    ensures |Ahead(Next(alpha, w, e).fair, l, g)| + Turn(e, l) <= |Ahead(w.fair, l, g)|
  {
    var f' := Next(alpha, w, e).fair;
    ServeWaits(alpha, w, l, g, base, total, e, f');
    ServeAhead(alpha, w, l, g, base, total, e, f');
    SubsetSize(Ahead(f', l, g), if Rank(l) <= Rank(e.l) then Ahead(w.fair, l, g) - {e.g} else Ahead(w.fair, l, g));
  }

  lemma SubmitOvertakesNone(alpha: real, w: World, l: Level, g: GroupId, base: real, total: nat, e: Event)
    requires Waits(alpha, w, l, g, base, total) && PassesBy(e, g) && e.Submit? && EventBounded(w.fair, e, base, total)
    ensures Waits(alpha, Next(alpha, w, e), l, g, base, total)
    ensures |Ahead(Next(alpha, w, e).fair, l, g)| <= |Ahead(w.fair, l, g)|
  {
    var f, f' := w.fair, Next(alpha, w, e).fair;
    Priority.ScoreBound(alpha, w.now, e.base, f.MetaOf(e.g).total + 1, f.MetaOf(e.g).done, base, total);
    forall x: GroupId
      ensures 1 <= f'.MetaOf(x).total ==> f'.MetaOf(x).base <= base && f'.MetaOf(x).total <= total
      ensures f'.Pending(x) != [] ==> 1 <= f'.MetaOf(x).total
    {
      assert 1 <= f.MetaOf(x).total ==> f.MetaOf(x).base <= base && f.MetaOf(x).total <= total;
      assert f.Pending(x) != [] ==> 1 <= f.MetaOf(x).total;
    }
    SubsetSize(Ahead(f', l, g), Ahead(f, l, g));
  }

  lemma OtherOvertakesNone(alpha: real, w: World, l: Level, g: GroupId, base: real, total: nat, e: Event)
    requires Waits(alpha, w, l, g, base, total) && Enabled(w, e) && !e.Submit? && !e.Serve?
    ensures Waits(alpha, Next(alpha, w, e), l, g, base, total)
    ensures Ahead(Next(alpha, w, e).fair, l, g) == Ahead(w.fair, l, g)
  {
    var f, f' := w.fair, Next(alpha, w, e).fair;
    forall x: GroupId
      ensures 1 <= f'.MetaOf(x).total ==> f'.MetaOf(x).base <= base && f'.MetaOf(x).total <= total
      ensures f'.Pending(x) != [] ==> 1 <= f'.MetaOf(x).total
    {
      assert 1 <= f.MetaOf(x).total ==> f.MetaOf(x).base <= base && f.MetaOf(x).total <= total;
      assert f.Pending(x) != [] ==> 1 <= f.MetaOf(x).total;
    }
  }

  /** The events of a run stay within the bounds and pass g by. */
  ghost predicate RunPassesBy(alpha: real, w: World, es: seq<Event>, g: GroupId, base: real, total: nat)
    decreases |es|
  {
    es != [] ==>
      && Enabled(w, es[0]) && PassesBy(es[0], g) && EventBounded(w.fair, es[0], base, total)
      && RunPassesBy(alpha, Next(alpha, w, es[0]), es[1..], g, base, total)
  }

  /** While an overdue group waits, levels at or below its own get at most one turn per group ahead of it. */
  lemma {:induction false} TurnsBounded(alpha: real, w: World, l: Level, g: GroupId, base: real, total: nat,
                                        es: seq<Event>)
    requires Waits(alpha, w, l, g, base, total) && RunPassesBy(alpha, w, es, g, base, total)
    ensures Turns(es, l) <= |Ahead(w.fair, l, g)|
    decreases |es|
  {
    if es != [] {
      var e := es[0];
      if e.Serve? {
        TurnOvertakesOnce(alpha, w, l, g, base, total, e);
      } else if e.Submit? {
        SubmitOvertakesNone(alpha, w, l, g, base, total, e);
      } else {
        OtherOvertakesNone(alpha, w, l, g, base, total, e);
      }
      TurnsBounded(alpha, Next(alpha, w, e), l, g, base, total, es[1..]);
    }
  }

  /** Bounded overtaking: an overdue group is served before its level has had as many turns as it has groups. */
  lemma BoundedOvertaking(alpha: real, before: seq<Event>, w: World, l: Level, g: GroupId, base: real, total: nat,
                          es: seq<Event>)
    requires Run(alpha, START, before, w)
    requires (l, g) in w.fair.scores && w.fair.Pending(g) != [] && Overdue(alpha, w, l, g, base, total)
    requires forall x: GroupId :: 1 <= w.fair.MetaOf(x).total ==>
      w.fair.MetaOf(x).base <= base && w.fair.MetaOf(x).total <= total
    requires RunPassesBy(alpha, w, es, g, base, total)
    ensures Turns(es, l) < |GroupsAt(w.fair, l)|
  {
    RunKeeps(alpha, START, before, w);
    forall x: GroupId
      ensures w.fair.Pending(x) != [] ==> 1 <= w.fair.MetaOf(x).total
    {
      assert |ListAt(w.enqueued, x)| <= w.fair.MetaOf(x).total;
      assert ListAt(w.enqueued, x) == ListAt(w.dequeued, x) + w.fair.Pending(x);
    }
    TurnsBounded(alpha, w, l, g, base, total, es);
    assert (l, g) in w.fair.scores && g in GroupsAt(w.fair, l);
    SubsetSize(Ahead(w.fair, l, g), GroupsAt(w.fair, l) - {g});
  }
}
