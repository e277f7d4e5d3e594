/** The fixed-window rate limiter: one counter per window and group, one per window for all, and the set of
    groups that share the global rate. */
module RateLimiter {
  import opened Base

  type Window = nat
  type Key = (GroupId, Window)

  // The id of a group that is called "global": its counter's key is the key of the global counter.
  const GLOBAL: GroupId := 1

  /** The share of one of `groups` groups. */
  function Share(rps: nat, groups: nat): (share: nat)
    ensures 1 <= share
  {
    Max(1, rps / Max(1, groups))
  }

  datatype Limits = Limits(counts: map<Key, nat>, active: set<GroupId>)
  {
    function Count(g: GroupId, w: Window): nat {
      CountAt(counts, (g, w))
    }

    /** A group called "global" is counted twice by each of its own requests. */
    predicate Admits(g: GroupId, w: Window, rps: nat) {
      && Count(GLOBAL, w) < rps
      && Count(g, w) + (if g == GLOBAL then 2 else 1) <= Share(rps, |active + {g}|)
    }

    function Check(g: GroupId, w: Window, rps: nat): Limits {
      Limits(
        if !Admits(g, w, rps) then counts
        else if g == GLOBAL then counts[(GLOBAL, w) := Count(GLOBAL, w) + 2]
        else counts[(GLOBAL, w) := Count(GLOBAL, w) + 1][(g, w) := Count(g, w) + 1],
        active + {g})
    }
  }

  datatype Admission = Admission(now: nat, group: GroupId)

  datatype Event = Request(g: GroupId, now: nat) | Deactivate(g: GroupId)

  /** The limiter's keys, and a record of every request it allowed. */
  datatype World = World(limits: Limits, log: seq<Admission>)

  const START := World(Limits(map[], {}), [])

  function WindowOf(now: nat, windowMs: nat): Window
    requires windowMs > 0
  {
    now / windowMs
  }

  /** A reading lies in its window. */
  lemma WindowMeans(now: nat, windowMs: nat)
    requires windowMs > 0
    ensures WindowOf(now, windowMs) * windowMs <= now < (WindowOf(now, windowMs) + 1) * windowMs
  {
    assert now == now / windowMs * windowMs + now % windowMs;
  }

  lemma Below(a: nat, b: nat, n: nat)
    requires a * n < (b + 1) * n
    ensures a <= b
  {
    if b < a {
      Scale(b + 1, a, n);
    }
  }

  /** Readings a window's length apart never share one; the later one is in a later window. */
  lemma WindowsPass(t: nat, now: nat, windowMs: nat)
    requires windowMs > 0 && t + windowMs <= now
    ensures WindowOf(t, windowMs) < WindowOf(now, windowMs)
  {
    WindowMeans(t, windowMs);
    WindowMeans(now, windowMs);
    var a, b := WindowOf(t, windowMs), WindowOf(now, windowMs);
    assert (a + 1) * windowMs == a * windowMs + windowMs;
    Below(a + 1, b, windowMs);
  }

  /** Instances need not agree on the time: each request carries its own clock reading. */
  function Next(s: World, e: Event, rps: nat, windowMs: nat): World
    requires windowMs > 0
  {
    match e
    case Request(g, now) =>
      var w := WindowOf(now, windowMs);
      World(s.limits.Check(g, w, rps), if s.limits.Admits(g, w, rps) then s.log + [Admission(now, g)] else s.log)
    case Deactivate(g) => s.(limits := s.limits.(active := s.limits.active - {g}))
  }

  function After(s: World, es: seq<Event>, rps: nat, windowMs: nat): World
    requires windowMs > 0
  {
    if es == [] then s else Next(After(s, es[..|es| - 1], rps, windowMs), es[|es| - 1], rps, windowMs)
  }

  // ---- Counters against the record ----

  function AdmittedIn(log: seq<Admission>, w: Window, windowMs: nat): nat
    requires windowMs > 0
  {
    if log == [] then 0
    else AdmittedIn(log[..|log| - 1], w, windowMs) + if WindowOf(log[|log| - 1].now, windowMs) == w then 1 else 0
  }

  function AdmittedOf(log: seq<Admission>, g: GroupId, w: Window, windowMs: nat): nat
    requires windowMs > 0
  {
    if log == [] then 0
    else
      var last := log[|log| - 1];
      AdmittedOf(log[..|log| - 1], g, w, windowMs)
        + if WindowOf(last.now, windowMs) == w && last.group == g then 1 else 0
  }

  ghost predicate Counted(s: World, rps: nat, windowMs: nat)
    requires windowMs > 0
  {
    && (forall w: Window ::
      s.limits.Count(GLOBAL, w) == AdmittedIn(s.log, w, windowMs) + AdmittedOf(s.log, GLOBAL, w, windowMs) <= rps)
    && (forall g: GroupId, w: Window :: g != GLOBAL ==> s.limits.Count(g, w) == AdmittedOf(s.log, g, w, windowMs))
  }

  lemma LogAppended(log: seq<Admission>, e: Admission, g: GroupId, w: Window, windowMs: nat)
    requires windowMs > 0
    ensures AdmittedIn(log + [e], w, windowMs)
      == AdmittedIn(log, w, windowMs) + if WindowOf(e.now, windowMs) == w then 1 else 0
    ensures AdmittedOf(log + [e], g, w, windowMs) ==
      AdmittedOf(log, g, w, windowMs) + if WindowOf(e.now, windowMs) == w && e.group == g then 1 else 0
  {
  }

  lemma ShareAtMost(rps: nat, groups: nat)
    requires rps > 0
    ensures Share(rps, groups) <= rps
  {
  }

  lemma RequestCounted(s: World, g: GroupId, now: nat, rps: nat, windowMs: nat)
    requires windowMs > 0 && Counted(s, rps, windowMs)
    ensures Counted(Next(s, Request(g, now), rps, windowMs), rps, windowMs)
  {
    var s' := Next(s, Request(g, now), rps, windowMs);
    var v := WindowOf(now, windowMs);
    if s.limits.Admits(g, v, rps) {
      ShareAtMost(rps, |s.limits.active + {g}|);
      forall w: Window
        ensures s'.limits.Count(GLOBAL, w)
          == AdmittedIn(s'.log, w, windowMs) + AdmittedOf(s'.log, GLOBAL, w, windowMs) <= rps
      {
        LogAppended(s.log, Admission(now, g), GLOBAL, w, windowMs);
      }
      forall h: GroupId, w: Window | h != GLOBAL
        ensures s'.limits.Count(h, w) == AdmittedOf(s'.log, h, w, windowMs)
      {
        LogAppended(s.log, Admission(now, g), h, w, windowMs);
      }
    }
  }

  lemma {:induction false} AfterCounted(es: seq<Event>, rps: nat, windowMs: nat)
    requires windowMs > 0
    ensures Counted(After(START, es, rps, windowMs), rps, windowMs)
  {
    if es != [] {
      AfterCounted(es[..|es| - 1], rps, windowMs);
      var e := es[|es| - 1];
      if e.Request? {
        RequestCounted(After(START, es[..|es| - 1], rps, windowMs), e.g, e.now, rps, windowMs);
      }
    }
  }

  /** In every reachable state the global counter of a window counts its admissions, those of a group called
      "global" twice, and stays within the global rate: no window admits more than that. */
  lemma WindowBound(es: seq<Event>, rps: nat, windowMs: nat, w: Window)
    requires windowMs > 0
    ensures var s := After(START, es, rps, windowMs);
      AdmittedIn(s.log, w, windowMs) <= s.limits.Count(GLOBAL, w) <= rps
  {
    AfterCounted(es, rps, windowMs);
  }

  lemma {:induction false} NoneAdmitted(log: seq<Admission>, g: GroupId, now: nat, windowMs: nat)
    requires windowMs > 0 && forall i :: 0 <= i < |log| ==> log[i].now + windowMs <= now
    ensures AdmittedIn(log, WindowOf(now, windowMs), windowMs) == 0
    ensures AdmittedOf(log, g, WindowOf(now, windowMs), windowMs) == 0
  {
    if log != [] {
      NoneAdmitted(log[..|log| - 1], g, now, windowMs);
      WindowsPass(log[|log| - 1].now, now, windowMs);
    }
  }

  lemma TwoShares(rps: nat, k: nat)
    requires 1 <= k
    ensures 2 <= Share(rps, k) <==> 2 * k <= rps
  {
    var q := rps / k;
    assert rps == q * k + rps % k;
    if 2 <= q {
      Scale(2, q, k);
    } else {
      Scale(q, 1, k);
    }
  }

  /** What was used up comes back: when all admissions lie a window's length back or more, a request is admitted, at any
      rate of at least one; only a group called "global" needs room for two. */
  lemma FreshAdmits(es: seq<Event>, s: World, rps: nat, windowMs: nat, g: GroupId, now: nat)
    requires windowMs > 0 && rps >= 1 && s == After(START, es, rps, windowMs)
    requires forall i :: 0 <= i < |s.log| ==> s.log[i].now + windowMs <= now
    ensures s.limits.Admits(g, now / windowMs, rps) <==> g != GLOBAL || 2 * |s.limits.active + {g}| <= rps
  {
    AfterCounted(es, rps, windowMs);
    NoneAdmitted(s.log, g, now, windowMs);
    NoneAdmitted(s.log, GLOBAL, now, windowMs);
    assert g in s.limits.active + {g};
    TwoShares(rps, |s.limits.active + {g}|);
  }

  /** A group is active exactly if it made a request that no deactivation followed. */
  lemma {:induction false} ActiveMeans(es: seq<Event>, rps: nat, windowMs: nat, g: GroupId)
    requires windowMs > 0
    ensures g in After(START, es, rps, windowMs).limits.active <==>
      exists i :: 0 <= i < |es| && es[i].Request? && es[i].g == g && Deactivate(g) !in es[i..]
  {
    if es != [] {
      var init, last := es[..|es| - 1], es[|es| - 1];
      ActiveMeans(init, rps, windowMs, g);
      assert es == init + [last];
      forall i | 0 <= i < |init|
        ensures es[i..] == init[i..] + [last]
      {
      }
      if last.Request? && last.g == g {
        assert es[|init|..] == [last];
        assert es[|init|].Request? && es[|init|].g == g && Deactivate(g) !in es[|init|..];
      } else if last == Deactivate(g) {
        assert forall i :: 0 <= i < |es| ==> last in es[i..];
      } else if i :| 0 <= i < |init| && init[i].Request? && init[i].g == g && Deactivate(g) !in init[i..] {
        assert es[i].Request? && es[i].g == g && Deactivate(g) !in es[i..];
      }
    }
  }

  // ---- Any span of one window length ----

  function AdmittedFrom(log: seq<Admission>, t: nat, windowMs: nat): nat {
    if log == [] then 0
    else AdmittedFrom(log[..|log| - 1], t, windowMs) + if t <= log[|log| - 1].now < t + windowMs then 1 else 0
  }

  lemma SpanWindows(t: nat, now: nat, windowMs: nat)
    requires windowMs > 0 && t <= now < t + windowMs
    ensures WindowOf(now, windowMs) == WindowOf(t, windowMs) || WindowOf(now, windowMs) == WindowOf(t, windowMs) + 1
  {
    var q, r := t / windowMs, t % windowMs + (now - t);
    assert t == q * windowMs + t % windowMs;
    if r < windowMs {
      Quotient(now, q, r, windowMs);
    } else {
      Quotient(now, q + 1, r - windowMs, windowMs);
    }
  }

  lemma Quotient(x: nat, q: nat, r: nat, n: nat)
    requires r < n && x == q * n + r
    ensures x / n == q
  {
    assert x == x / n * n + x % n;
    if x / n < q {
      Scale(x / n + 1, q, n);
    } else if x / n > q {
      Scale(q + 1, x / n, n);
    }
  }

  lemma {:induction false} SpanSplits(log: seq<Admission>, t: nat, windowMs: nat)
    requires windowMs > 0
    ensures var w := WindowOf(t, windowMs);
      AdmittedFrom(log, t, windowMs) <= AdmittedIn(log, w, windowMs) + AdmittedIn(log, w + 1, windowMs)
  {
    if log != [] {
      SpanSplits(log[..|log| - 1], t, windowMs);
      if t <= log[|log| - 1].now < t + windowMs {
        SpanWindows(t, log[|log| - 1].now, windowMs);
      }
    }
  }

  /** Any span of one window length admits at most twice the global rate, wherever it begins. */
  lemma SpanBound(es: seq<Event>, rps: nat, windowMs: nat, t: nat)
    requires windowMs > 0
    ensures AdmittedFrom(After(START, es, rps, windowMs).log, t, windowMs) <= 2 * rps
  {
    SpanSplits(After(START, es, rps, windowMs).log, t, windowMs);
    WindowBound(es, rps, windowMs, WindowOf(t, windowMs));
    WindowBound(es, rps, windowMs, WindowOf(t, windowMs) + 1);
  }

  // ---- The global counter against the group counters ----

  ghost function Total(limits: Limits, gs: set<GroupId>, w: Window): nat {
    if gs == {} then 0 else
    var g :| g in gs;
    limits.Count(g, w) + Total(limits, gs - {g}, w)
  }

  lemma {:induction false} TotalAt(limits: Limits, gs: set<GroupId>, w: Window, g: GroupId)
    requires g in gs
    ensures Total(limits, gs, w) == limits.Count(g, w) + Total(limits, gs - {g}, w)
    decreases |gs|
  {
    var h :| h in gs && Total(limits, gs, w) == limits.Count(h, w) + Total(limits, gs - {h}, w);
    if h != g {
      TotalAt(limits, gs - {h}, w, g);
      assert gs - {h} - {g} == gs - {g} - {h};
      TotalAt(limits, gs - {g}, w, h);
    }
  }

  /** The groups of the record that have a counter of their own. */
  function Named(log: seq<Admission>): set<GroupId> {
    set e | e in log && e.group != GLOBAL :: e.group
  }

  /** The record splits by group. */
  lemma {:induction false} TotalOfLog(limits: Limits, gs: set<GroupId>, log: seq<Admission>, w: Window, windowMs: nat)
    requires windowMs > 0 && GLOBAL !in gs && Named(log) <= gs
    requires forall g :: g in gs ==> limits.Count(g, w) == AdmittedOf(log, g, w, windowMs)
    ensures AdmittedIn(log, w, windowMs) == AdmittedOf(log, GLOBAL, w, windowMs) + Total(limits, gs, w)
    decreases |log|
  {
    if log == [] {
      NoneTotal(limits, gs, w);
    } else {
      var init, last := log[..|log| - 1], log[|log| - 1];
      assert log == init + [last];
      var before := Limits(map g | g in gs :: (g, w) := AdmittedOf(init, g, w, windowMs), {});
      assert forall e :: e in init ==> e in log;
      TotalOfLog(before, gs, init, w, windowMs);
      if last.group in gs {
        TotalAt(limits, gs, w, last.group);
        TotalAt(before, gs, w, last.group);
        SameTotal(limits, before, gs - {last.group}, w);
      } else {
        assert last.group in Named(log) || last.group == GLOBAL;
        SameTotal(limits, before, gs, w);
      }
    }
  }

  lemma {:induction false} NoneTotal(limits: Limits, gs: set<GroupId>, w: Window)
    requires forall g :: g in gs ==> limits.Count(g, w) == 0
    ensures Total(limits, gs, w) == 0
    decreases |gs|
  {
    if gs != {} {
      var g :| g in gs;
      TotalAt(limits, gs, w, g);
      NoneTotal(limits, gs - {g}, w);
    }
  }

  lemma {:induction false} SameTotal(l: Limits, l': Limits, gs: set<GroupId>, w: Window)
    requires forall g :: g in gs ==> l.Count(g, w) == l'.Count(g, w)
    ensures Total(l, gs, w) == Total(l', gs, w)
    decreases |gs|
  {
    if gs != {} {
      var g :| g in gs;
      TotalAt(l, gs, w, g);
      TotalAt(l', gs, w, g);
      SameTotal(l, l', gs - {g}, w);
    }
  }

  /** The global counter of a window is the sum of its group counters exactly if no request of a group called
      "global" was admitted in it; each such request puts the two apart by two. */
  lemma GlobalIsSum(es: seq<Event>, rps: nat, windowMs: nat, w: Window, gs: set<GroupId>)
    requires windowMs > 0 && GLOBAL !in gs && Named(After(START, es, rps, windowMs).log) <= gs
    ensures var s := After(START, es, rps, windowMs);
      && s.limits.Count(GLOBAL, w) == Total(s.limits, gs, w) + 2 * AdmittedOf(s.log, GLOBAL, w, windowMs)
      && (s.limits.Count(GLOBAL, w) == Total(s.limits, gs, w) <==> AdmittedOf(s.log, GLOBAL, w, windowMs) == 0)
  {
    var s := After(START, es, rps, windowMs);
    AfterCounted(es, rps, windowMs);
    TotalOfLog(s.limits, gs, s.log, w, windowMs);
  }

  // ---- The guaranteed share ----

  /** From s on only requests of the groups in s's active set arrive, so the active set stays as it is. */
  predicate Steady(active: set<GroupId>, es: seq<Event>) {
    forall i :: 0 <= i < |es| ==> es[i].Request? && es[i].g in active
  }

  /** No counter of window w exceeds the share, and only active groups have one. */
  ghost predicate Shared(l: Limits, active: set<GroupId>, w: Window, share: nat) {
    && l.active == active
    && (forall g :: g in active ==> l.Count(g, w) <= share)
    && l.Count(GLOBAL, w) == Total(l, active, w)
  }

  lemma {:induction false} TotalAtMost(l: Limits, gs: set<GroupId>, w: Window, share: nat)
    requires forall g :: g in gs ==> l.Count(g, w) <= share
    ensures Total(l, gs, w) <= share * |gs|
    decreases |gs|
  {
    if gs != {} {
      var g :| g in gs;
      TotalAt(l, gs, w, g);
      TotalAtMost(l, gs - {g}, w, share);
      OneMore(share, |gs|, l.Count(g, w), Total(l, gs - {g}, w));
    }
  }

  lemma OneMore(share: nat, n: nat, own: nat, others: nat)
    requires 1 <= n && own <= share && others <= share * (n - 1)
    ensures own + others <= share * n
  {
  }

  lemma ShareTimes(rps: nat, k: nat)
    requires 0 < k <= rps
    ensures Share(rps, k) == rps / k && Share(rps, k) * k <= rps
  {
  }

  /** A group below its share finds the global counter below the global rate. */
  lemma RoomForShare(l: Limits, active: set<GroupId>, w: Window, rps: nat, g: GroupId)
    requires 0 < |active| <= rps && Shared(l, active, w, Share(rps, |active|)) && g in active
    requires l.Count(g, w) < Share(rps, |active|)
    ensures l.Count(GLOBAL, w) < rps
  {
    var share, rest := Share(rps, |active|), active - {g};
    ShareTimes(rps, |active|);
    TotalAt(l, active, w, g);
    TotalAtMost(l, rest, w, share);
    assert active == rest + {g};
    BelowProduct(share, |active|, l.Count(g, w), Total(l, rest, w), rps);
  }

  lemma BelowProduct(share: nat, n: nat, own: nat, others: nat, bound: nat)
    requires 0 < n && own < share && others <= share * (n - 1) && share * n <= bound
    ensures own + others < bound
  {
  }

  lemma RequestShared(l: Limits, active: set<GroupId>, w: Window, rps: nat, g: GroupId, v: Window)
    requires 0 < |active| <= rps && GLOBAL !in active && g in active && Shared(l, active, w, Share(rps, |active|))
    ensures Shared(l.Check(g, v, rps), active, w, Share(rps, |active|))
  {
    var l' := l.Check(g, v, rps);
    assert active + {g} == active;
    if l.Admits(g, v, rps) && v == w {
      TotalAt(l, active, w, g);
      TotalAt(l', active, w, g);
      SameTotal(l, l', active - {g}, w);
    } else {
      SameTotal(l, l', active, w);
    }
  }

  lemma {:induction false} SteadyShared(s: World, es: seq<Event>, rps: nat, windowMs: nat, w: Window)
    requires windowMs > 0 && 0 < |s.limits.active| <= rps && GLOBAL !in s.limits.active && Steady(s.limits.active, es)
    requires Shared(s.limits, s.limits.active, w, Share(rps, |s.limits.active|))
    ensures Shared(After(s, es, rps, windowMs).limits, s.limits.active, w, Share(rps, |s.limits.active|))
  {
    if es != [] {
      var e := es[|es| - 1];
      SteadyShared(s, es[..|es| - 1], rps, windowMs, w);
      RequestShared(After(s, es[..|es| - 1], rps, windowMs).limits, s.limits.active, w, rps, e.g,
        WindowOf(e.now, windowMs));
    }
  }

  /** Guaranteed share: while k groups, no more than the global rate, stay active and none of them is called
      "global", a request in a window that began fresh is admitted if and only if its group has used fewer than
      floor(rate / k) of that window, whatever the others did. */
  lemma GuaranteedShare(s: World, es: seq<Event>, rps: nat, windowMs: nat, g: GroupId, w: Window)
    requires windowMs > 0 && 0 < |s.limits.active| <= rps && GLOBAL !in s.limits.active && Steady(s.limits.active, es)
    requires (forall h :: h in s.limits.active ==> s.limits.Count(h, w) == 0) && s.limits.Count(GLOBAL, w) == 0
    requires g in s.limits.active
    ensures var l := After(s, es, rps, windowMs).limits;
      l.Admits(g, w, rps) <==> l.Count(g, w) < rps / |s.limits.active|
  {
    var active := s.limits.active;
    NoneTotal(s.limits, active, w);
    SteadyShared(s, es, rps, windowMs, w);
    var l := After(s, es, rps, windowMs).limits;
    ShareTimes(rps, |active|);
    assert active + {g} == active;
    if l.Count(g, w) < rps / |active| {
      RoomForShare(l, active, w, rps, g);
    }
  }

  /** A group called "global" gets half: alone, of n requests in one window it gets n through, or half the rate if
      that is less; any other group alone gets n, or the whole rate. */
  lemma {:induction false} GlobalNameHalvesShare(es: seq<Event>, rps: nat, windowMs: nat, w: Window)
    requires windowMs > 0
    requires forall i :: 0 <= i < |es| ==> es[i].Request? && es[i].g == GLOBAL && WindowOf(es[i].now, windowMs) == w
    ensures var s := After(START, es, rps, windowMs);
      && s.limits.active <= {GLOBAL} && s.limits.Count(GLOBAL, w) == 2 * AdmittedOf(s.log, GLOBAL, w, windowMs)
      && AdmittedOf(s.log, GLOBAL, w, windowMs) == Min(|es|, rps / 2)
  {
    if es != [] {
      var init := es[..|es| - 1];
      GlobalNameHalvesShare(init, rps, windowMs, w);
      var s := After(START, init, rps, windowMs);
      assert s.limits.active + {GLOBAL} == {GLOBAL};
      LogAppended(s.log, Admission(es[|es| - 1].now, GLOBAL), GLOBAL, w, windowMs);
    }
  }

  /** After an answer the counters show it: an admitted request is counted and keeps to both limits, and a refused
      one would be refused again. */
  lemma AnswerShows(l: Limits, g: GroupId, w: Window, rps: nat)
    ensures var l' := l.Check(g, w, rps);
      if l.Admits(g, w, rps) then l'.Count(GLOBAL, w) <= rps && 0 < l'.Count(g, w) <= Share(rps, |l'.active|)
      else !l'.Admits(g, w, rps)
  {
    var active := l.active + {g};
    if l.Admits(g, w, rps) {
      ShareAtMost(rps, |active|);
    } else {
      assert active + {g} == active;
      assert l.Check(g, w, rps) == Limits(l.counts, active);
    }
  }

  class RateLimiterService {
    const globalRps: nat
    const windowMs: nat
    var counts: map<Key, nat>
    var active: set<GroupId>

    constructor (globalRps: nat, rateLimitWindowSec: nat)
      requires rateLimitWindowSec > 0
      ensures View() == START.limits && this.globalRps == globalRps && windowMs == rateLimitWindowSec * 1000
    {
      this.globalRps, windowMs := globalRps, rateLimitWindowSec * 1000;
      counts, active := map[], {};
    }

    function View(): Limits
      reads this
    {
      Limits(counts, active)
    }

    method Increment(k: Key) returns (value: nat)
      modifies this`counts
      ensures value == CountAt(old(counts), k) + 1 && counts == old(counts)[k := value]
    {
      value := CountAt(counts, k) + 1;
      counts := counts[k := value];
    }

    method Decrement(k: Key)
      requires CountAt(counts, k) > 0
      modifies this`counts
      ensures counts == old(counts)[k := CountAt(old(counts), k) - 1]
    {
      counts := counts[k := CountAt(counts, k) - 1];
    }

    /** The rate-limit-check script: it counts first and takes back what it refuses. */
    method CheckRateLimit(g: GroupId, now: nat)
      returns (allowed: bool, globalCount: nat, groupCount: nat, perGroupLimit: nat)
      requires windowMs > 0
      modifies this
      ensures var w := now / windowMs;
        && allowed == old(View()).Admits(g, w, globalRps)
        && active == old(View()).Check(g, w, globalRps).active
        && (forall h, v :: View().Count(h, v) == old(View()).Check(g, w, globalRps).Count(h, v))
        && (allowed ==> globalCount == old(View()).Count(GLOBAL, w) + 1 && groupCount == View().Count(g, w))
        && (!allowed && old(View()).Count(GLOBAL, w) >= globalRps ==>
             globalCount == old(View()).Count(GLOBAL, w) && groupCount == 0 && perGroupLimit == 0)
        && (!allowed && old(View()).Count(GLOBAL, w) < globalRps ==>
             && globalCount == old(View()).Count(GLOBAL, w) + 1 && perGroupLimit == Share(globalRps, |active|)
             && groupCount == old(View()).Count(g, w) + (if g == GLOBAL then 1 else 0))
    {
      var w := WindowOf(now, windowMs);
      active := active + {g};
      globalCount := Increment((GLOBAL, w));
      if globalCount > globalRps {
        Decrement((GLOBAL, w));
        return false, globalCount - 1, 0, 0;
      }
      perGroupLimit := Share(globalRps, |active|);
      groupCount := Increment((g, w));
      if groupCount > perGroupLimit {
        Decrement((g, w));
        Decrement((GLOBAL, w));
        return false, globalCount, groupCount - 1, perGroupLimit;
      }
      return true, globalCount, groupCount, perGroupLimit;
    }

    method DeactivateGroup(g: GroupId)
      modifies this`active
      ensures active == old(active) - {g}
    {
      active := active - {g};
    }
  }
}
