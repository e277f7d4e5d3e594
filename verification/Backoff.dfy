/** The delay a throttled or retried job waits before it may be moved to the ready queue. */
module Backoff {
  import opened Base

  datatype CongestionLevel = NONE | LOW | MODERATE | HIGH | CRITICAL

  datatype BackoffResponse = BackoffResponse(
    backoffMs: int,
    nonReadyCount: int,
    rateLimitSpeed: int,
    level: CongestionLevel)

  /** The share of the global rate one of `activeGroups` groups gets: at least one per second. */
  function Speed(globalRps: nat, activeGroups: nat): (s: nat)
    ensures 1 <= s
  {
    Max(1, globalRps / Max(1, activeGroups))
  }

  /** The delay the congestion-backoff script schedules. */
  function ScheduledDelay(baseMs: nat, maxMs: nat, count: nat, speed: nat): nat
    requires 1 <= speed
  {
    var backoff := baseMs + count / speed * 1000;
    if backoff > maxMs then maxMs else backoff
  }

  /** The share of the rate without its division: k groups' shares fit into the rate, and one more each does not; with
      more groups than the rate has places each gets one. */
  lemma SpeedMeans(globalRps: nat, activeGroups: nat)
    ensures var s, k := Speed(globalRps, activeGroups), if activeGroups >= 1 then activeGroups else 1;
      if k <= globalRps then s * k <= globalRps < (s + 1) * k else s == 1
  {
    var k := Max(1, activeGroups);
    var q := globalRps / k;
    assert globalRps == q * k + globalRps % k;
    if k <= globalRps && q < 1 {
      assert false;
    }
  }

  /** The delay: never above the cap, and below it the base plus a second for every full share of jobs that wait. */
  lemma DelayMeans(baseMs: nat, maxMs: nat, count: nat, speed: nat) returns (seconds: nat)
    requires 1 <= speed
    ensures seconds * speed <= count < (seconds + 1) * speed
    ensures ScheduledDelay(baseMs, maxMs, count, speed) <= maxMs
    ensures baseMs + 1000 * seconds <= maxMs ==> ScheduledDelay(baseMs, maxMs, count, speed) == baseMs + 1000 * seconds
    ensures baseMs + 1000 * seconds > maxMs ==> ScheduledDelay(baseMs, maxMs, count, speed) == maxMs
  {
    seconds := count / speed;
    assert count == seconds * speed + count % speed;
  }

  function Classify(backoffMs: int, baseMs: int): CongestionLevel {
    if baseMs <= 0 then NONE
    else
      var ratio := backoffMs as real / baseMs as real;
      if ratio <= 1.0 then NONE
      else if ratio < 3.0 then LOW
      else if ratio < 10.0 then MODERATE
      else if ratio < 30.0 then HIGH
      else CRITICAL
  }

  /** The response the calculator builds from the script's answer. */
  function Calculate(count: nat, speed: int, baseMs: nat, maxMs: nat): BackoffResponse {
    var safe := Max(1, speed);
    var backoff := Min(baseMs + count / safe * 1000, maxMs);
    BackoffResponse(backoff, count, safe, Classify(backoff, baseMs))
  }

  /** The level by multiples of the base delay. */
  lemma ClassifyMeans(backoffMs: nat, baseMs: nat)
    requires baseMs > 0
    ensures Classify(backoffMs, baseMs) ==
      if backoffMs <= baseMs then NONE
      else if backoffMs < 3 * baseMs then LOW
      else if backoffMs < 10 * baseMs then MODERATE
      else if backoffMs < 30 * baseMs then HIGH
      else CRITICAL
  {
    var ratio := backoffMs as real / baseMs as real;
    Against(ratio, backoffMs, baseMs, 1);
    Against(ratio, backoffMs, baseMs, 3);
    Against(ratio, backoffMs, baseMs, 10);
    Against(ratio, backoffMs, baseMs, 30);
  }

  /** A ratio compared without dividing. */
  lemma Against(ratio: real, x: nat, y: nat, n: nat)
    requires y > 0 && ratio == x as real / y as real
    ensures ratio < n as real <==> x < n * y
    ensures ratio <= n as real <==> x <= n * y
  {
    assert ratio * y as real == x as real;
    assert (n * y) as real == n as real * y as real;
    if ratio < n as real {
      assert ratio * y as real < n as real * y as real;
    } else if ratio > n as real {
      assert ratio * y as real > n as real * y as real;
    }
  }

  /** A longer queue never means a lower level or a shorter delay. */
  lemma MoreMeansWorse(count: nat, more: nat, speed: int, baseMs: nat, maxMs: nat)
    requires count <= more && baseMs > 0
    ensures var r, r' := Calculate(count, speed, baseMs, maxMs), Calculate(more, speed, baseMs, maxMs);
      r.backoffMs <= r'.backoffMs && Severity(r.level) <= Severity(r'.level)
  {
    QuotientMono(count, more, Max(1, speed));
    ClassifyMeans(Calculate(count, speed, baseMs, maxMs).backoffMs, baseMs);
    ClassifyMeans(Calculate(more, speed, baseMs, maxMs).backoffMs, baseMs);
  }

  function Severity(l: CongestionLevel): nat {
    match l
    case NONE => 0
    case LOW => 1
    case MODERATE => 2
    case HIGH => 3
    case CRITICAL => 4
  }

  /** What is reported is what was scheduled. */
  lemma ReportedIsScheduled(count: nat, globalRps: nat, activeGroups: nat, baseMs: nat, maxMs: nat)
    ensures var speed := Speed(globalRps, activeGroups);
      Calculate(count, speed, baseMs, maxMs).backoffMs == ScheduledDelay(baseMs, maxMs, count, speed)
  {
  }

  // ---- Many jobs at one instant ----

  /** The non-ready queue and the counters behind it. */
  datatype Congestion = Congestion(nonReady: map<JobId, nat>, counts: map<GroupId, nat>)
  {
    function Add(j: JobId, g: GroupId, now: nat, speed: nat, baseMs: nat, maxMs: nat): Congestion
      requires 1 <= speed
    {
      var count := CountAt(counts, g) + 1;
      Congestion(nonReady[j := now + ScheduledDelay(baseMs, maxMs, count, speed)], counts[g := count])
    }

    function AddAll(js: seq<JobId>, g: GroupId, now: nat, speed: nat, baseMs: nat, maxMs: nat): Congestion
      requires 1 <= speed
    {
      if js == [] then this
      else AddAll(js[..|js| - 1], g, now, speed, baseMs, maxMs).Add(js[|js| - 1], g, now, speed, baseMs, maxMs)
    }
  }

  lemma {:induction false} AddedAt(s: Congestion, js: seq<JobId>, g: GroupId, now: nat, speed: nat, baseMs: nat,
                                   maxMs: nat, i: nat)
    requires 1 <= speed && NoDup(js) && i < |js|
    ensures var s' := s.AddAll(js, g, now, speed, baseMs, maxMs);
      && CountAt(s'.counts, g) == CountAt(s.counts, g) + |js|
      && js[i] in s'.nonReady
      && s'.nonReady[js[i]] == now + ScheduledDelay(baseMs, maxMs, CountAt(s.counts, g) + i + 1, speed)
  {
    var init := js[..|js| - 1];
    if init != [] {
      AddedAt(s, init, g, now, speed, baseMs, maxMs, if i < |init| then i else 0);
    }
    assert s.AddAll([], g, now, speed, baseMs, maxMs) == s;
  }

  lemma QuotientMono(a: nat, b: nat, n: nat)
    requires a <= b && 1 <= n
    ensures a / n <= b / n
  {
    assert a == a / n * n + a % n && b == b / n * n + b % n;
    if b / n < a / n {
      Scale(b / n + 1, a / n, n);
    }
  }

  lemma {:induction false} FitsRange(xs: set<int>, lo: int, n: nat)
    requires forall x :: x in xs ==> lo <= x < lo + n
    ensures |xs| <= n
  {
    if n == 0 {
      assert xs == {} by {
        assert forall x :: x !in xs;
      }
    } else {
      var last := lo + n - 1;
      var rest := xs - {last};
      FitsRange(rest, lo, n - 1);
      if last in xs {
        assert xs == rest + {last};
      } else {
        assert xs == rest;
      }
    }
  }

  /** Counts with the quotient q by n make up a range of n. */
  lemma QuotientRange(x: nat, q: nat, n: nat)
    requires 1 <= n && x / n == q
    ensures q * n <= x < q * n + n
  {
  }

  /** The members of js that fall due in the second that begins at t. */
  ghost function DueWithin(s: Congestion, js: seq<JobId>, t: nat): set<int> {
    set i | 0 <= i < |js| && js[i] in s.nonReady && t <= s.nonReady[js[i]] < t + 1000
  }

  lemma Later(s: Congestion, js: seq<JobId>, g: GroupId, now: nat, speed: nat, baseMs: nat, maxMs: nat, i: nat, k: nat)
    requires 1 <= speed && NoDup(js) && i < k < |js|
    ensures var s' := s.AddAll(js, g, now, speed, baseMs, maxMs);
      js[i] in s'.nonReady && js[k] in s'.nonReady && s'.nonReady[js[i]] <= s'.nonReady[js[k]]
  {
    AddedAt(s, js, g, now, speed, baseMs, maxMs, i);
    AddedAt(s, js, g, now, speed, baseMs, maxMs, k);
    QuotientMono(CountAt(s.counts, g) + i + 1, CountAt(s.counts, g) + k + 1, speed);
  }

  lemma BelowCap(s: Congestion, js: seq<JobId>, g: GroupId, now: nat, speed: nat, baseMs: nat, maxMs: nat, i: nat)
    requires 1 <= speed && NoDup(js) && i < |js|
    requires baseMs + (CountAt(s.counts, g) + |js|) / speed * 1000 <= maxMs
    ensures var s' := s.AddAll(js, g, now, speed, baseMs, maxMs);
      js[i] in s'.nonReady && s'.nonReady[js[i]] == now + baseMs + (CountAt(s.counts, g) + i + 1) / speed * 1000
  {
    AddedAt(s, js, g, now, speed, baseMs, maxMs, i);
    QuotientMono(CountAt(s.counts, g) + i + 1, CountAt(s.counts, g) + |js|, speed);
  }

  lemma SameSecond(start: nat, p: nat, q: nat, t: nat)
    requires t <= start + p * 1000 < t + 1000 && t <= start + q * 1000 < t + 1000
    ensures p == q
  {
  }

  /** Jobs due at whole seconds after `start`, the quotients of their counts, fill a second at most once over. */
  lemma QuotientsSpread(s: Congestion, js: seq<JobId>, quotients: seq<nat>, start: nat, c: nat, speed: nat, t: nat)
    requires 1 <= speed && |quotients| == |js|
    requires forall i :: 0 <= i < |js| ==> js[i] in s.nonReady && s.nonReady[js[i]] == start + quotients[i] * 1000
    requires forall i :: 0 <= i < |js| ==> quotients[i] == (c + i + 1) / speed
    ensures |DueWithin(s, js, t)| <= speed
  {
    var due := DueWithin(s, js, t);
    if due != {} {
      var i :| i in due;
      var q := quotients[i];
      forall k | k in due
        ensures q * speed - c - 1 <= k < q * speed - c - 1 + speed
      {
        SameSecond(start, q, quotients[k], t);
        QuotientRange(c + k + 1, q, speed);
      }
      FitsRange(due, q * speed - c - 1, speed);
    }
  }

  function Quotients(c: nat, n: nat, speed: nat): (qs: seq<nat>)
    requires 1 <= speed
    ensures |qs| == n && forall i :: 0 <= i < n ==> qs[i] == (c + i + 1) / speed
  {
    seq(n, i requires 0 <= i < n => (c + i + 1) / speed)
  }

  lemma DueAtQuotients(s: Congestion, s': Congestion, js: seq<JobId>, g: GroupId, now: nat, speed: nat, baseMs: nat,
                       maxMs: nat, i: nat, q: nat)
    requires 1 <= speed && NoDup(js) && i < |js| && s' == s.AddAll(js, g, now, speed, baseMs, maxMs)
    requires baseMs + (CountAt(s.counts, g) + |js|) / speed * 1000 <= maxMs
    requires q == (CountAt(s.counts, g) + i + 1) / speed
    ensures js[i] in s'.nonReady && s'.nonReady[js[i]] == now + baseMs + q * 1000
  {
    BelowCap(s, js, g, now, speed, baseMs, maxMs, i);
  }

  lemma OneSecondAtMost(s: Congestion, s': Congestion, js: seq<JobId>, g: GroupId, now: nat, speed: nat, baseMs: nat,
                        maxMs: nat, c: nat, t: nat)
    requires 1 <= speed && NoDup(js) && c == CountAt(s.counts, g)
    requires baseMs + (c + |js|) / speed * 1000 <= maxMs
    requires s' == s.AddAll(js, g, now, speed, baseMs, maxMs)
    ensures |DueWithin(s', js, t)| <= speed
  {
    var quotients := Quotients(c, |js|, speed);
    forall i | 0 <= i < |js|
      ensures js[i] in s'.nonReady && s'.nonReady[js[i]] == now + baseMs + quotients[i] * 1000
    {
      DueAtQuotients(s, s', js, g, now, speed, baseMs, maxMs, i, quotients[i]);
    }
    QuotientsSpread(s', js, quotients, now + baseMs, c, speed, t);
  }

  /** Backoff spreads load: jobs of one group delayed at one instant fall due in the order they arrived, and,
      as long as the cap is not reached, at most one group share of them in any one second. */
  lemma BackoffSpreads(s: Congestion, js: seq<JobId>, g: GroupId, now: nat, speed: nat, baseMs: nat, maxMs: nat)
    requires 1 <= speed && NoDup(js)
    ensures var s' := s.AddAll(js, g, now, speed, baseMs, maxMs);
      && (forall i, k :: 0 <= i < k < |js| ==>
        js[i] in s'.nonReady && js[k] in s'.nonReady && s'.nonReady[js[i]] <= s'.nonReady[js[k]])
      && (baseMs + (CountAt(s.counts, g) + |js|) / speed * 1000 <= maxMs ==>
           forall t: nat :: |DueWithin(s', js, t)| <= speed)
  {
    var s' := s.AddAll(js, g, now, speed, baseMs, maxMs);
    forall i, k | 0 <= i < k < |js|
      ensures js[i] in s'.nonReady && js[k] in s'.nonReady && s'.nonReady[js[i]] <= s'.nonReady[js[k]]
    {
      Later(s, js, g, now, speed, baseMs, maxMs, i, k);
    }
    if baseMs + (CountAt(s.counts, g) + |js|) / speed * 1000 <= maxMs {
      forall t: nat
        ensures |DueWithin(s', js, t)| <= speed
      {
        OneSecondAtMost(s, s', js, g, now, speed, baseMs, maxMs, CountAt(s.counts, g), t);
      }
    }
  }

  class CongestionControlService {
    const globalRps: nat
    const baseMs: nat
    const maxMs: nat
    const enabled: bool
    var nonReady: map<JobId, nat>
    var counts: map<GroupId, nat>

    constructor (globalRps: nat, baseMs: nat, maxMs: nat, enabled: bool)
      ensures View() == Congestion(map[], map[])
      ensures this.globalRps == globalRps && this.baseMs == baseMs && this.maxMs == maxMs && this.enabled == enabled
    {
      this.globalRps, this.baseMs, this.maxMs, this.enabled := globalRps, baseMs, maxMs, enabled;
      nonReady, counts := map[], map[];
    }

    function View(): Congestion
      reads this
    {
      Congestion(nonReady, counts)
    }

    /** The congestion-backoff script and the response built from its answer; what is reported is what was
        scheduled. Switched off, it falls back to the fixed delay, which leaves the counters alone. */
    method AddToNonReady(j: JobId, g: GroupId, now: nat, activeGroups: nat) returns (response: BackoffResponse)
      modifies this
      ensures enabled ==> View() == old(View()).Add(j, g, now, Speed(globalRps, activeGroups), baseMs, maxMs)
      ensures !enabled ==> nonReady == old(nonReady)[j := now + baseMs] && counts == old(counts)
      ensures j in nonReady && nonReady[j] == now + response.backoffMs
      ensures enabled ==>
        response.nonReadyCount == counts[g] && response.rateLimitSpeed == Speed(globalRps, activeGroups)
      ensures response.level == if enabled then Classify(response.backoffMs, baseMs) else NONE
      ensures enabled ==> counts == old(counts)[g := CountAt(old(counts), g) + 1] && response.backoffMs <= maxMs
      ensures forall i :: i != j ==> (i in nonReady <==> i in old(nonReady))
      ensures forall i :: i != j && i in nonReady ==> nonReady[i] == old(nonReady)[i]
    {
      if !enabled {
        response := FixedBackoff(j, now);
        return;
      }
      var count := CountAt(counts, g) + 1;
      counts := counts[g := count];
      var speed := Speed(globalRps, activeGroups);
      var backoff := baseMs + count / speed * 1000;
      if backoff > maxMs {
        backoff := maxMs;
      }
      assert backoff == ScheduledDelay(baseMs, maxMs, count, speed);
      nonReady := nonReady[j := now + backoff];
      response := Calculate(count, speed, baseMs, maxMs);
    }

    method FixedBackoff(j: JobId, now: nat) returns (response: BackoffResponse)
      modifies this`nonReady
      ensures nonReady == old(nonReady)[j := now + baseMs] && response == BackoffResponse(baseMs, 0, 0, NONE)
    {
      nonReady := nonReady[j := now + baseMs];
      response := BackoffResponse(baseMs, 0, 0, NONE);
    }

    method ReleaseFromNonReady(g: GroupId, n: nat) returns (count: nat)
      modifies this`counts
      ensures counts == old(counts)[g := count] && count == Max(0, CountAt(old(counts), g) - n)
    {
      var left: int := CountAt(counts, g) - n;
      if left < 0 {
        left := 0;
      }
      count := left;
      counts := counts[g := count];
    }

    method ResetGroupStats(g: GroupId)
      modifies this`counts
      ensures counts == old(counts) - {g}
    {
      counts := counts - {g};
    }
  }
}
