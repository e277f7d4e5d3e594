/** The score by which the fair queue orders the groups of one priority level. */
module Priority {
  import opened Base

  /** Jobs of the group that still count as remaining: never below one. */
  function Remaining(total: int, done: int): (r: int)
    ensures 1 <= r && total - done <= r
  {
    Max(1, total - done)
  }

  function Boost(alpha: real, total: int, done: int): real {
    alpha * (-1.0 + total as real / Remaining(total, done) as real)
  }

  function Score(alpha: real, now: int, base: real, total: int, done: int): real {
    -(now as real) + base + Boost(alpha, total, done)
  }

  /** The boost times the jobs that remain, on plain reals. */
  lemma ScaledRatio(alpha: real, t: real, r: real, boost: real)
    requires r > 0.0 && boost == alpha * (-1.0 + t / r)
    ensures r * boost == alpha * (t - r)
  {
    var q := t / r;
    assert r * q == t;
    Regroup(alpha, q, r);
  }

  lemma Regroup(alpha: real, q: real, r: real)
    ensures r * (alpha * (-1.0 + q)) == alpha * (r * q - r)
  {
  }

  lemma Shifted(score: real, now: real, base: real, boost: real)
    requires score == -now + base + boost
    ensures score + now - base == boost
  {
  }

  /** The formula cleared of its quotient: a group none of whose jobs is done scores by age and base alone, a
      millisecond and a unit of base weighing the same; the boost, times the jobs that remain, is alpha times the jobs
      done; and with one job or none remaining it is alpha times all jobs but one. */
  lemma ScoreMeans(alpha: real, now: int, base: real, total: int, done: int)
    ensures 1 <= total && done == 0 ==> Score(alpha, now, base, total, done) == base - now as real
    ensures 1 <= total - done ==>
      (total - done) as real * (Score(alpha, now, base, total, done) + now as real - base) == alpha * done as real
    ensures total - done <= 1 ==>
      Score(alpha, now, base, total, done) + now as real - base == alpha * (total - 1) as real
  {
    var r, boost := Remaining(total, done), Boost(alpha, total, done);
    Shifted(Score(alpha, now, base, total, done), now as real, base, boost);
    ScaledRatio(alpha, total as real, r as real, boost);
    assert (total - r) as real == total as real - r as real;
    if 1 <= total && done == 0 {
      NoProgress(alpha, total as real, boost);
    }
  }

  lemma NoProgress(alpha: real, t: real, boost: real)
    requires t >= 1.0 && t * boost == alpha * (t - t)
    ensures boost == 0.0
  {
  }

  /** The largest boost a group of at most `total` jobs can get. */
  function MaxBoost(alpha: real, total: int): real {
    if alpha <= 0.0 then 0.0 else alpha * (total as real - 1.0)
  }

  lemma ProgressFactor(total: int, done: int)
    requires 1 <= total && 0 <= done
    ensures 0.0 <= -1.0 + total as real / Remaining(total, done) as real <= total as real - 1.0
  {
    QuotientBetween(total as real, Remaining(total, done) as real);
  }

  lemma QuotientBetween(t: real, r: real)
    requires 1.0 <= r <= t
    ensures 1.0 <= t / r <= t
  {
    var q := t / r;
    assert q * r == t;
    if q < 1.0 {
      StrictProduct(r, q, 1.0);
    }
    if t < q {
      StrictProduct(r, t, q);
      MulOrder(t, 1.0, r);
    }
  }

  lemma MulOrder(a: real, x: real, y: real)
    requires 0.0 <= a && x <= y
    ensures a * x <= a * y
  {
  }

  lemma StrictProduct(a: real, x: real, y: real)
    requires 0.0 < a && x < y
    ensures a * x < a * y
  {
  }

  /** Whatever the sign of alpha, no score exceeds its time bound by more than base plus boost. */
  lemma ScoreBound(alpha: real, now: int, base: real, total: int, done: int, baseBound: real, totalBound: int)
    requires 1 <= total <= totalBound && 0 <= done && base <= baseBound
    ensures Score(alpha, now, base, total, done) <= -(now as real) + baseBound + MaxBoost(alpha, totalBound)
  {
    ProgressFactor(total, done);
    var f := -1.0 + total as real / Remaining(total, done) as real;
    if alpha <= 0.0 {
      MulOrder(-alpha, 0.0, f);
      assert alpha * f == -((-alpha) * f);
    } else {
      MulOrder(alpha, f, totalBound as real - 1.0);
    }
  }

  lemma LargerQuotient(t: real, r: real, r': real)
    requires 0.0 < r' < r && 0.0 < t
    ensures t / r < t / r'
  {
    var q, q' := t / r, t / r';
    assert q * r == t == q' * r';
    if q' <= q {
      MulOrder(r', q', q);
      if q <= 0.0 {
        MulOrder(r, q, 0.0);
      }
      StrictProduct(q, r', r);
    }
  }

  /** Shortest-job-first for positive alpha, the reverse for negative alpha: among groups
      equal in everything else, the score moves with the work done in the direction of alpha's sign. */
  lemma ProgressMovesScore(alpha: real, now: int, base: real, total: int, done: int, more: int)
    requires 1 <= total && 0 <= done < more < total
    ensures alpha > 0.0 ==> Score(alpha, now, base, total, done) < Score(alpha, now, base, total, more)
    ensures alpha < 0.0 ==> Score(alpha, now, base, total, done) > Score(alpha, now, base, total, more)
  {
    var r, r' := Remaining(total, done) as real, Remaining(total, more) as real;
    LargerQuotient(total as real, r, r');
    StrictScale(alpha, total as real / r, total as real / r');
  }

  lemma StrictScale(a: real, x: real, y: real)
    requires x < y
    ensures a > 0.0 ==> a * (-1.0 + x) < a * (-1.0 + y)
    ensures a < 0.0 ==> a * (-1.0 + x) > a * (-1.0 + y)
  {
  }
}
