/** The fair queue: three sorted sets of groups, and one first-in-first-out job list per group. */
module FairQueue {
  import opened Base
  import Priority

  datatype Level = HIGH | NORMAL | LOW

  function Rank(l: Level): nat {
    match l case HIGH => 0 case NORMAL => 1 case LOW => 2
  }

  type Slot = (Level, GroupId)

  datatype GroupMeta = GroupMeta(base: real, total: nat, done: nat)

  /** The keys the queue's scripts read and write, as one value. */
  datatype Fair = Fair(
    scores: map<Slot, real>,
    lists: map<GroupId, seq<JobId>>,
    meta: map<GroupId, GroupMeta>)
  {
    function Pending(g: GroupId): seq<JobId> {
      ListAt(lists, g)
    }

    function MetaOf(g: GroupId): GroupMeta {
      if g in meta then meta[g] else GroupMeta(0.0, 0, 0)
    }

    /** Group h comes before group g when level l is read from the highest score down. */
    predicate Before(l: Level, h: GroupId, g: GroupId)
      requires (l, h) in scores && (l, g) in scores
    {
      scores[(l, h)] > scores[(l, g)] || (scores[(l, h)] == scores[(l, g)] && h > g)
    }

    /** The entry (l, g) is the first one, level by level and then by score, that has a job. */
    ghost predicate Serves(l: Level, g: GroupId) {
      && (l, g) in scores
      && Pending(g) != []
      && (forall k :: k in scores && Rank(k.0) < Rank(l) ==> Pending(k.1) == [])
      && (forall h :: (l, h) in scores && Before(l, h, g) ==> Pending(h) == [])
    }

    /** No entry has a job. */
    ghost predicate Drained() {
      forall k :: k in scores ==> Pending(k.1) == []
    }

    /** The head of level l when it is read from the highest score down. */
    ghost predicate IsTop(l: Level, top: Option<GroupId>) {
      match top
      case None => forall h :: (l, h) !in scores
      case Some(g) => (l, g) in scores && forall h :: (l, h) in scores && h != g ==> Before(l, g, h)
    }

    /** `was`, with some leading job-less entries of level l thrown away. */
    ghost predicate Trimmed(was: Fair, l: Level) {
      && this == was.(scores := scores)
      && scores.Keys <= was.scores.Keys
      && (forall k :: k in scores ==> was.scores[k] == scores[k])
      && (forall k :: k in was.scores && k !in scores ==> k.0 == l && Pending(k.1) == [])
      && (forall h, k :: (l, h) in scores && (l, k) in was.scores && (l, k) !in scores ==> was.Before(l, k, h))
    }

    /** The queue once a scan has finished with the first i levels. */
    ghost function FromLevel(i: nat): Fair {
      this.(scores := map k | k in scores && i <= Rank(k.0) :: scores[k])
    }

    ghost predicate IdleAbove(i: nat) {
      forall k :: k in scores && Rank(k.0) < i ==> Pending(k.1) == []
    }

    /** The entries a scan that ends at (l, g) meets first and throws away. */
    ghost predicate Skipped(l: Level, g: GroupId, k: Slot)
      requires k in scores && (l, g) in scores
    {
      Rank(k.0) < Rank(l) || (k.0 == l && Before(l, k.1, g))
    }

    ghost function Enqueue(alpha: real, now: nat, g: GroupId, j: JobId, base: real, l: Level): Fair {
      var known := MetaOf(g);
      var total := known.total + 1;
      Fair(
        scores[(l, g) := Priority.Score(alpha, now, base, total, known.done)],
        lists[g := Pending(g) + [j]],
        meta[g := if total == 1 then GroupMeta(base, 1, 0) else known.(total := total)])
    }

    function Take(alpha: real, now: nat, l: Level, g: GroupId): Fair
      requires (l, g) in scores && Pending(g) != []
    {
      var m := MetaOf(g);
      var rest := Pending(g)[1..];
      Fair(
        if rest == [] then scores - {(l, g)}
        else scores[(l, g) := Priority.Score(alpha, now, m.base, m.total, m.done)],
        lists[g := rest],
        meta)
    }

    ghost function Dequeue(alpha: real, now: nat, l: Level, g: GroupId): Fair
      requires Serves(l, g)
    {
      this.(scores := map k | k in scores && !Skipped(l, g, k) :: scores[k]).Take(alpha, now, l, g)
    }

    /** What one run of the dequeue script answers and leaves behind. */
    ghost predicate Dequeues(alpha: real, now: nat, job: Option<(GroupId, JobId)>, l: Level, after: Fair) {
      match job
      case None => Drained() && after == this.(scores := map[])
      case Some((g, j)) => Serves(l, g) && j == Pending(g)[0] && after == Dequeue(alpha, now, l, g)
    }

    function Ack(g: GroupId): Fair {
      this.(meta := meta[g := MetaOf(g).(done := MetaOf(g).done + 1)])
    }

    /** What the ack script answers: every job of the group is done. */
    predicate AckCompletes(g: GroupId) {
      MetaOf(g).done + 1 >= MetaOf(g).total
    }
  }

  /** What is served is of the highest level that has a job, and there of the highest score, ties by id. */
  lemma ServesHighestFirst(f: Fair, l: Level, g: GroupId)
    requires f.Serves(l, g)
    ensures !l.HIGH? ==> forall h :: (HIGH, h) in f.scores ==> f.Pending(h) == []
    ensures l.LOW? ==> forall h :: (NORMAL, h) in f.scores ==> f.Pending(h) == []
    ensures forall h :: (l, h) in f.scores && f.Pending(h) != [] ==>
      && f.scores[(l, h)] <= f.scores[(l, g)]
      && (f.scores[(l, h)] == f.scores[(l, g)] ==> h <= g)
  {
    forall h | (l, h) in f.scores && f.Pending(h) != []
      ensures f.scores[(l, h)] <= f.scores[(l, g)]
      ensures f.scores[(l, h)] == f.scores[(l, g)] ==> h <= g
    {
      assert !f.Before(l, h, g);
    }
  }

  /** A scan that trims level l, once all higher levels are gone, arrives where Serves says. */
  lemma ScanServes(was: Fair, mid: Fair, l: Level, g: GroupId)
    requires was.IdleAbove(Rank(l)) && mid.Trimmed(was.FromLevel(Rank(l)), l)
    requires mid.IsTop(l, Some(g)) && mid.Pending(g) != []
    ensures was.Serves(l, g)
    ensures mid == was.(scores := map k | k in was.scores && !was.Skipped(l, g, k) :: was.scores[k])
  {
    var cut := was.FromLevel(Rank(l));
    forall h | (l, h) in was.scores && was.Before(l, h, g)
      ensures (l, h) !in mid.scores && was.Pending(h) == []
    {
      assert (l, h) in cut.scores;
      assert (l, g) in cut.scores;
    }
    forall k | k in was.scores
      ensures k in mid.scores <==> !was.Skipped(l, g, k)
    {
      if k.0 == l {
        assert k == (l, k.1);
      }
      if k in cut.scores && k !in mid.scores {
        assert (l, k.1) in cut.scores && (l, k.1) !in mid.scores && (l, g) in mid.scores;
        assert cut.Before(l, k.1, g);
      }
    }
    assert mid.scores.Keys == (map k | k in was.scores && !was.Skipped(l, g, k) :: was.scores[k]).Keys;
  }

  /** A scan that finds nothing at level l leaves just the levels below. */
  lemma ScanExhausts(was: Fair, mid: Fair, l: Level)
    requires was.IdleAbove(Rank(l)) && mid.Trimmed(was.FromLevel(Rank(l)), l) && mid.IsTop(l, None)
    ensures was.IdleAbove(Rank(l) + 1) && mid == was.FromLevel(Rank(l) + 1)
  {
    var cut := was.FromLevel(Rank(l));
    forall k | k in was.scores && Rank(k.0) <= Rank(l)
      ensures k !in mid.scores && was.Pending(k.1) == []
    {
      if k.0 == l {
        assert k == (l, k.1) && k in cut.scores;
      }
    }
    assert mid.scores == was.FromLevel(Rank(l) + 1).scores;
  }

  const EMPTY := Fair(map[], map[], map[])

  class FairQueueService {
    const alpha: real
    var scores: map<Slot, real>
    var lists: map<GroupId, seq<JobId>>
    var meta: map<GroupId, GroupMeta>

    constructor (alpha: real)
      ensures View() == EMPTY && this.alpha == alpha
    {
      this.alpha := alpha;
      scores, lists, meta := map[], map[], map[];
    }

    function View(): Fair
      reads this
    {
      Fair(scores, lists, meta)
    }

    method Enqueue(now: nat, g: GroupId, j: JobId, base: real, l: Level)
      modifies this
      ensures View() == old(View()).Enqueue(alpha, now, g, j, base, l)
      ensures lists == old(lists)[g := ListAt(old(lists), g) + [j]]
      ensures g in old(meta) && old(meta)[g].total > 0 ==>
        meta == old(meta)[g := old(meta)[g].(total := old(meta)[g].total + 1)]
      ensures g !in old(meta) || old(meta)[g].total == 0 ==> meta == old(meta)[g := GroupMeta(base, 1, 0)]
      ensures var done := if g in old(meta) then old(meta)[g].done else 0;
        scores == old(scores)[(l, g) := Priority.Score(alpha, now, base, meta[g].total, done)]
    {
      lists := lists[g := ListAt(lists, g) + [j]];
      var m := if g in meta then meta[g] else GroupMeta(0.0, 0, 0);
      var total, done := m.total + 1, m.done;
      meta := meta[g := m.(total := total)];
      if total == 1 {
        meta := meta[g := GroupMeta(base, total, 0)];
      }
      scores := scores[(l, g) := Priority.Score(alpha, now, base, total, done)];
    }

    method Top(l: Level) returns (top: Option<GroupId>)
      ensures View().IsTop(l, top)
    {
      top := None;
      var todo := scores.Keys;
      while todo != {}
        invariant todo <= scores.Keys
        invariant top.None? ==> forall h :: (l, h) in scores ==> (l, h) in todo
        invariant top.Some? ==> (l, top.value) in scores
        invariant top.Some? ==> forall h :: (l, h) in scores && h != top.value && (l, h) !in todo ==>
          View().Before(l, top.value, h)
        decreases todo
      {
        var k :| k in todo;
        todo := todo - {k};
        if k.0 == l && (top.None? || View().Before(l, k.1, top.value)) {
          top := Some(k.1);
        }
      }
    }

    /** Throws away groups without jobs from the head of level l. */
    method Scan(l: Level) returns (top: Option<GroupId>)
      modifies this`scores
      ensures View().Trimmed(old(View()), l) && View().IsTop(l, top)
      ensures top.Some? ==> View().Pending(top.value) != []
    {
      ghost var was := View();
      top := Top(l);
      while top.Some? && ListAt(lists, top.value) == []
        invariant View().Trimmed(was, l) && View().IsTop(l, top)
        decreases scores.Keys
      {
        var g := top.value;
        scores := scores - {(l, g)};
        top := Top(l);
      }
    }

    /** One level of the scan: the job found there, or nothing and the level is empty. */
    method DequeueLevel(now: nat, l: Level, ghost was: Fair) returns (job: Option<(GroupId, JobId)>)
      requires was.IdleAbove(Rank(l)) && View() == was.FromLevel(Rank(l))
      modifies this
      ensures job.Some? ==> was.Dequeues(alpha, now, job, l, View())
      ensures job.None? ==> was.IdleAbove(Rank(l) + 1) && View() == was.FromLevel(Rank(l) + 1)
    {
      var top := Scan(l);
      if top.Some? {
        ScanServes(was, View(), l, top.value);
        var j := Take(now, l, top.value);
        return Some((top.value, j));
      }
      ScanExhausts(was, View(), l);
      return None;
    }

    /** Scans the levels in order until a job is found. */
    method Dequeue(now: nat) returns (job: Option<(GroupId, JobId)>, ghost level: Level)
      modifies this
      ensures old(View()).Dequeues(alpha, now, job, level, View())
      ensures job.None? ==> forall k :: k in old(scores) ==> ListAt(old(lists), k.1) == []
      ensures job.Some? ==>
        var (g, j) := job.value;
        && (level, g) in old(scores) && [j] <= ListAt(old(lists), g) && lists == old(lists)[g := old(lists)[g][1..]]
      // a level is served only when every level above it has no job, and within it the highest score, ties by id
      ensures job.Some? && !level.HIGH? ==> forall h :: (HIGH, h) in old(scores) ==> ListAt(old(lists), h) == []
      ensures job.Some? && level.LOW? ==> forall h :: (NORMAL, h) in old(scores) ==> ListAt(old(lists), h) == []
      ensures job.Some? ==> forall h :: (level, h) in old(scores) && ListAt(old(lists), h) != [] ==>
        && old(scores)[(level, h)] <= old(scores)[(level, job.value.0)]
        && (old(scores)[(level, h)] == old(scores)[(level, job.value.0)] ==> h <= job.value.0)
    {
      var levels := [HIGH, NORMAL, LOW];
      ghost var was := View();
      assert was.scores == was.FromLevel(0).scores;
      for i := 0 to 3
        invariant View() == was.FromLevel(i) && was.IdleAbove(i)
      {
        level := levels[i];
        job := DequeueLevel(now, levels[i], was);
        if job.Some? {
          ServesHighestFirst(was, level, job.value.0);
          return;
        }
      }
      assert was.FromLevel(3).scores == map[];
      return None, HIGH;
    }

    method Take(now: nat, l: Level, g: GroupId) returns (j: JobId)
      requires (l, g) in scores && View().Pending(g) != []
      modifies this
      ensures View() == old(View()).Take(alpha, now, l, g) && j == old(View()).Pending(g)[0]
      ensures meta == old(meta) && lists == old(lists)[g := lists[g]] && old(lists)[g] == [j] + lists[g]
      ensures lists[g] == [] ==> scores == old(scores) - {(l, g)}
      ensures lists[g] != [] ==>
        var m := if g in meta then meta[g] else GroupMeta(0.0, 0, 0);
        scores == old(scores)[(l, g) := Priority.Score(alpha, now, m.base, m.total, m.done)]
    {
      var jobs := ListAt(lists, g);
      var m := if g in meta then meta[g] else GroupMeta(0.0, 0, 0);
      j := jobs[0];
      lists := lists[g := jobs[1..]];
      if jobs[1..] == [] {
        scores := scores - {(l, g)};
      } else {
        scores := scores[(l, g) := Priority.Score(alpha, now, m.base, m.total, m.done)];
      }
    }

    method Ack(g: GroupId) returns (groupCompleted: bool)
      modifies this
      ensures View() == old(View()).Ack(g)
      ensures groupCompleted == old(View()).AckCompletes(g)
      ensures g in meta && meta[g].done == 1 + (if g in old(meta) then old(meta)[g].done else 0)
      ensures meta[g].total == if g in old(meta) then old(meta)[g].total else 0
      ensures groupCompleted <==> meta[g].done >= meta[g].total
    {
      var m := if g in meta then meta[g] else GroupMeta(0.0, 0, 0);
      meta := meta[g := m.(done := m.done + 1)];
      groupCompleted := m.done + 1 >= m.total;
    }
  }
}
