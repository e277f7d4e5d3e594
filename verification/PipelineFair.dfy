/** Every fair run drains: without new jobs, if workers, fetchers, dispatchers and recoverers do some of the work that
    can be done whenever there is any, and otherwise wait until work falls due, every job ends up in a final place. */
module PipelineFair {
  import opened Base
  import opened FairQueue
  import opened ReliableQueue
  import opened SortedSet
  import opened Pipeline
  import opened PipelinePlaces
  import opened PipelineRetries
  import opened PipelineTermination
  import opened PipelineDrain

  /** There is a job that somebody could take further now: in hand, in execution, ready, pending, or due. */
  ghost predicate Servable(s: State) {
    || (exists a :: Hand(s.At(a)).Some? || Executing(s.At(a)).Some?)
    || s.store.q.ready != []
    || (exists g: GroupId :: s.store.fair.Pending(g) != [])
    || (exists j :: j in s.store.nonReady && s.store.nonReady[j] <= s.store.now)
    || (exists j :: j in s.store.q.deadlines && s.store.q.deadlines[j] <= s.store.now)
  }

  /** Some job is delayed or in flight. */
  predicate Later(s: State) {
    s.store.nonReady != map[] || s.store.q.deadlines != map[]
  }

  /** A part of a run, without new jobs, that moves a job if there is one to serve, and otherwise lasts until there is
      one, or moves a job all the same. Crashes are allowed. */
  ghost predicate FairRound(c: Config, s: State, es: seq<Event>, s': State) {
    && SparingRun(c, s, es, s') && NoneNew(es)
    && (JobMoves(c, s, es) >= 1 || (!Servable(s) && (Later(s) ==> Servable(s'))))
  }

  ghost predicate FairRun(c: Config, s: State, rounds: seq<seq<Event>>, s': State)
    decreases |rounds|
  {
    if rounds == [] then s == s'
    else exists m :: FairRound(c, s, rounds[0], m) && FairRun(c, m, rounds[1..], s')
  }

  ghost predicate AllFinal(L: Ledger) {
    forall j :: j in L ==> Final(L[j])
  }

  /** An unfinished job can be served now, or is delayed or in flight. */
  lemma Unfinished(c: Config, s: State, L: Ledger, j: JobId)
    requires Consistent(c, s, L) && j in L && !Final(L[j])
    ensures Servable(s) || Later(s)
  {
    match L[j]
    case Waiting => assert j in s.store.fair.Pending(s.store.q.GroupOf(j));
    case Held(a) => assert OwnHand(L, a, s.At(a));
    case OnReady => assert j in s.store.q.ready;
    case Delayed => assert j in s.store.nonReady.Keys;
    case Flying => assert j in s.store.q.deadlines.Keys;
  }

  /** How many rounds may still pass with a job unfinished, given the weight left. */
  function Patience(weight: nat, servable: bool): nat {
    2 * weight + if servable then 0 else 1
  }

  /** A round that begins with a job unfinished moves a job, or ends a wait. */
  lemma RoundServes(c: Config, s: State, L: Ledger, j: JobId, es: seq<Event>, s': State)
    requires Consistent(c, s, L) && j in L && !Final(L[j]) && FairRound(c, s, es, s')
    ensures JobMoves(c, s, es) >= 1 || (!Servable(s) && Servable(s'))
  {
    Unfinished(c, s, L, j);
  }

  lemma RoundCosts(c: Config, s: State, L: Ledger, es: seq<Event>, s': State, was: bool, later: bool)
    returns (L': Ledger)
    requires InTime(c) && Consistent(c, s, L) && Counted(c, s, L) && SparingRun(c, s, es, s') && NoneNew(es)
    requires JobMoves(c, s, es) >= 1 || (!was && later)
    ensures Consistent(c, s', L') && Counted(c, s', L')
    ensures Patience(Sum(Weights(c, s', L')), later) < Patience(Sum(Weights(c, s, L)), was)
  {
    L' := RunMeasured(c, s, L, es, s');
  }

  lemma RoundFinal(c: Config, s: State, L: Ledger, es: seq<Event>, s': State) returns (L': Ledger)
    requires InTime(c) && Consistent(c, s, L) && Counted(c, s, L) && FairRound(c, s, es, s') && AllFinal(L)
    ensures Consistent(c, s', L') && Counted(c, s', L') && AllFinal(L')
  {
    L' := RunMeasured(c, s, L, es, s');
  }

  lemma {:induction false} RoundsDrain(c: Config, s: State, L: Ledger, rounds: seq<seq<Event>>, s': State)
    returns (L': Ledger)
    requires InTime(c) && Consistent(c, s, L) && Counted(c, s, L) && FairRun(c, s, rounds, s')
    requires AllFinal(L) || Patience(Sum(Weights(c, s, L)), Servable(s)) < |rounds|
    ensures Consistent(c, s', L') && AllFinal(L')
    decreases |rounds|
  {
    L' := L;
    if rounds != [] {
      var m :| FairRound(c, s, rounds[0], m) && FairRun(c, m, rounds[1..], s');
      var M;
      if j :| j in L && !Final(L[j]) {
        RoundServes(c, s, L, j, rounds[0], m);
        M := RoundCosts(c, s, L, rounds[0], m, Servable(s), Servable(m));
      } else {
        M := RoundFinal(c, s, L, rounds[0], m);
      }
      L' := RoundsDrain(c, m, M, rounds[1..], s');
    }
  }

  /** Every job is where no job leaves. */
  ghost predicate Drained(s: State) {
    forall j :: j in s.store.q.groups ==> exists p :: FinalSpot(p) && Occupies(s, j, p)
  }

  lemma FinalSpots(c: Config, s: State, L: Ledger)
    requires Consistent(c, s, L) && AllFinal(L)
    ensures Drained(s)
  {
    forall j | j in s.store.q.groups
      ensures exists p :: FinalSpot(p) && Occupies(s, j, p)
    {
      var p := SpotExists(c, s, L, j);
      SpotPlace(c, s, L, j, p);
      assert FinalSpot(p);
    }
  }

  /** Every fair run drains the pipeline: from every reachable state of a sparing run, every fair run without new jobs
      has all jobs in final places after a number of rounds that depends on the jobs and the retry limits only. */
  lemma FairRunsDrain(c: Config, now: nat, before: seq<Event>, s: State, rounds: seq<seq<Event>>, s': State)
    requires InTime(c) && SparingRun(c, Start(now), before, s) && FairRun(c, s, rounds, s')
    requires |rounds| > 2 * (MovesPerJob(c) * |s.store.q.groups|) + 1
    ensures Drained(s')
  {
    StartConsistent(c, now);
    var L := RunCounted(c, Start(now), map[], before, s);
    WeightsBounded(c, s, L);
    AllowanceIs(c, |s.store.q.groups|);
    var L' := RoundsDrain(c, s, L, rounds, s');
    FinalSpots(c, s', L');
  }

  lemma EmptyOrNot(js: seq<JobId>)
    ensures js == [] || exists j :: j in js
  {
    if js != [] {
      assert js[0] in js;
    }
  }

  lemma QueuesEmpty(s: Store, L: Ledger)
    requires Housed(s, L) && AllFinal(L)
    ensures s.q.ready == [] && s.nonReady == map[] && s.q.deadlines == map[]
    ensures forall g: GroupId :: s.fair.Pending(g) == []
  {
    assert forall j :: j !in s.q.ready && j !in s.nonReady.Keys && j !in s.q.deadlines.Keys;
    EmptyOrNot(s.q.ready);
    assert forall g: GroupId, j :: j !in s.fair.Pending(g);
    forall g: GroupId
      ensures s.fair.Pending(g) == []
    {
      EmptyOrNot(s.fair.Pending(g));
    }
  }

  lemma HandEmpty(c: Config, s: Store, L: Ledger, a: ActorId, k: Ctl)
    requires OwnHand(L, a, k) && OwnRun(c, s, L, k) && AllFinal(L)
    ensures Hand(k).None? && Executing(k).None?
  {
    assert forall j :: Hand(k) != Some(j);
  }

  lemma NothingToServe(c: Config, s: State, L: Ledger)
    requires Consistent(c, s, L) && AllFinal(L)
    ensures !Servable(s) && !Later(s)
  {
    QueuesEmpty(s.store, L);
    forall a
      ensures Hand(s.At(a)).None? && Executing(s.At(a)).None?
    {
      HandEmpty(c, s.store, L, a, s.At(a));
    }
  }

  /** And fairness can always be kept: every reachable state has a fair round, even one without crashes. */
  lemma FairRoundExists(c: Config, now: nat, before: seq<Event>, s: State) returns (es: seq<Event>, s': State)
    requires InTime(c) && Runnable(c) && SparingRun(c, Start(now), before, s)
    ensures FairRound(c, s, es, s') && Helps(c, s, es, s')
  {
    StartConsistent(c, now);
    var L := RunCounted(c, Start(now), map[], before, s);
    ReachedListed(c, Start(now), before, s);
    if j :| j in L && !Final(L[j]) {
      es, s' := SomeJobMoves(c, s, L, j);
    } else {
      NothingToServe(c, s, L);
      Nothing(c, s);
      es, s' := [], s;
    }
  }
}
