/** Sorted sets read by ascending score: the queues whose members fall due over time. */
module SortedSet {
  import opened Base

  predicate Earlier(m: map<JobId, nat>, j: JobId, k: JobId)
    requires j in m && k in m
  {
    m[j] < m[k] || (m[j] == m[k] && j < k)
  }

  /** js is what a range query for scores up to `now`, cut off after `limit` members, answers. */
  ghost predicate DueBatch(m: map<JobId, nat>, now: nat, limit: nat, js: seq<JobId>) {
    && |js| <= limit
    && (forall i :: 0 <= i < |js| ==> js[i] in m && m[js[i]] <= now)
    && (forall i, k :: 0 <= i < k < |js| ==> Earlier(m, js[i], js[k]))
    && (forall k :: k in m && m[k] <= now && k !in js ==>
          |js| == limit && forall i :: 0 <= i < |js| ==> Earlier(m, js[i], k))
  }

  /** A due batch in terms of scores and ids alone. */
  lemma DueMeans(m: map<JobId, nat>, now: nat, limit: nat, js: seq<JobId>)
    requires DueBatch(m, now, limit, js)
    ensures forall i :: 0 <= i < |js| ==> js[i] in m && m[js[i]] <= now
    ensures forall i, k :: 0 <= i < k < |js| ==> m[js[i]] <= m[js[k]] && (m[js[i]] == m[js[k]] ==> js[i] < js[k])
    ensures forall i, k :: 0 <= i < |js| && k in m && m[k] <= now && k !in js ==>
      m[js[i]] <= m[k] && (m[js[i]] == m[k] ==> js[i] < k)
    ensures |js| <= limit && (|js| < limit ==> forall k :: k in m && m[k] <= now ==> k in js)
  {
    assert forall i, k :: 0 <= i < k < |js| ==> Earlier(m, js[i], js[k]);
    assert forall i, k :: 0 <= i < |js| && k in m && m[k] <= now && k !in js ==> Earlier(m, js[i], k);
  }

  lemma EarliestExists(m: map<JobId, nat>, due: set<JobId>) returns (j: JobId)
    requires due != {} && due <= m.Keys
    ensures j in due && forall k :: k in due && k != j ==> Earlier(m, j, k)
    decreases due
  {
    var i :| i in due;
    var rest := due - {i};
    j := i;
    if rest != {} {
      var k := EarliestExists(m, rest);
      j := if Earlier(m, k, i) then k else i;
    }
    assert due == rest + {i};
  }

  /** Every sorted set has a due batch. */
  lemma DueExists(m: map<JobId, nat>, now: nat, limit: nat) returns (js: seq<JobId>)
    ensures DueBatch(m, now, limit, js)
    decreases limit
  {
    js := [];
    if limit > 0 {
      var init := DueExists(m, now, limit - 1);
      var due := set k | k in m && m[k] <= now && k !in init;
      js := init;
      if |init| == limit - 1 && due != {} {
        var j := EarliestExists(m, due);
        js := init + [j];
        forall k | k in m && m[k] <= now && k !in js
          ensures |js| == limit && forall i :: 0 <= i < |js| ==> Earlier(m, js[i], k)
        {
          assert k in due && k !in init;
        }
      } else {
        forall k | k in m && m[k] <= now
          ensures k in init
        {
          assert k !in due;
        }
      }
    }
  }

  /** With room in the batch, a due member makes it non-empty. */
  lemma DueNotEmpty(m: map<JobId, nat>, now: nat, limit: nat, js: seq<JobId>, j: JobId)
    requires DueBatch(m, now, limit, js) && limit >= 1 && j in m && m[j] <= now
    ensures js != []
  {
  }

  lemma NewMember(m: map<JobId, nat>, now: nat, limit: nat, js: seq<JobId>, n: nat)
    requires DueBatch(m, now, limit, js) && n < |js|
    ensures js[n] !in js[..n]
  {
    forall i | 0 <= i < n
      ensures js[..n][i] != js[n]
    {
      assert Earlier(m, js[i], js[n]);
    }
  }

  /** Where two batches of one set agree so far, the next member of either is not after the other's. */
  lemma NotAfter(m: map<JobId, nat>, now: nat, limit: nat, js: seq<JobId>, ks: seq<JobId>, n: nat)
    requires DueBatch(m, now, limit, js) && DueBatch(m, now, limit, ks) && n < |js| && n < |ks|
    requires js[..n] == ks[..n]
    ensures js[n] == ks[n] || Earlier(m, ks[n], js[n])
  {
    assert forall i :: 0 <= i < n ==> ks[i] == ks[..n][i] == js[..n][i] == js[i];
    NewMember(m, now, limit, js, n);
    if js[n] in ks[..n] {
      assert false;
    }
    assert ks == ks[..n] + ks[n..];
  }

  lemma {:induction false} SamePrefix(m: map<JobId, nat>, now: nat, limit: nat, js: seq<JobId>, ks: seq<JobId>, n: nat)
    requires DueBatch(m, now, limit, js) && DueBatch(m, now, limit, ks) && n <= |js| && n <= |ks|
    ensures js[..n] == ks[..n]
  {
    if n > 0 {
      SamePrefix(m, now, limit, js, ks, n - 1);
      NotAfter(m, now, limit, js, ks, n - 1);
      NotAfter(m, now, limit, ks, js, n - 1);
      assert js[..n] == js[..n - 1] + [js[n - 1]] && ks[..n] == ks[..n - 1] + [ks[n - 1]];
    }
  }

  lemma NotShorter(m: map<JobId, nat>, now: nat, limit: nat, js: seq<JobId>, ks: seq<JobId>)
    requires DueBatch(m, now, limit, js) && DueBatch(m, now, limit, ks)
    ensures |ks| <= |js|
  {
    assert js[..|js|] == js;
    if |js| < |ks| {
      SamePrefix(m, now, limit, js, ks, |js|);
      NewMember(m, now, limit, ks, |js|);
    }
  }

  /** A sorted set, a time and a limit determine the batch. */
  lemma DueUnique(m: map<JobId, nat>, now: nat, limit: nat, js: seq<JobId>, ks: seq<JobId>)
    requires DueBatch(m, now, limit, js) && DueBatch(m, now, limit, ks)
    ensures js == ks
  {
    NotShorter(m, now, limit, js, ks);
    NotShorter(m, now, limit, ks, js);
    SamePrefix(m, now, limit, js, ks, |js|);
  }

  /** The earliest of a non-empty set of members. */
  method First(m: map<JobId, nat>, due: set<JobId>) returns (j: JobId)
    requires due != {} && due <= m.Keys
    ensures j in due && forall k :: k in due && k != j ==> Earlier(m, j, k)
  {
    j :| j in due;
    var todo := due - {j};
    while todo != {}
      invariant todo <= due && j in due && j !in todo
      invariant forall k :: k in due && k != j && k !in todo ==> Earlier(m, j, k)
      decreases todo
    {
      var k :| k in todo;
      todo := todo - {k};
      if Earlier(m, k, j) {
        j := k;
      }
    }
  }

  method RangeByScore(m: map<JobId, nat>, now: nat, limit: nat) returns (js: seq<JobId>)
    ensures DueBatch(m, now, limit, js)
    // ascending scores, ties by id; whoever is due and left out comes after all that are taken; none is left out
    // while there is room
    ensures forall i, k :: 0 <= i < k < |js| ==>
      js[i] in m && js[k] in m && m[js[i]] <= m[js[k]] <= now && (m[js[i]] == m[js[k]] ==> js[i] < js[k])
    ensures forall i, k :: 0 <= i < |js| && k in m && m[k] <= now && k !in js ==>
      js[i] in m && m[js[i]] <= m[k] && (m[js[i]] == m[k] ==> js[i] < k)
    ensures |js| <= limit && (|js| < limit ==> forall k :: k in m && m[k] <= now ==> k in js)
  {
    js := [];
    var due := set k | k in m && m[k] <= now;
    while due != {} && |js| < limit
      invariant |js| <= limit
      invariant due == set k | k in m && m[k] <= now && k !in js
      invariant forall i :: 0 <= i < |js| ==> js[i] in m && m[js[i]] <= now
      invariant forall i, k :: 0 <= i < k < |js| ==> Earlier(m, js[i], js[k])
      invariant forall i, k :: 0 <= i < |js| && k in due ==> Earlier(m, js[i], k)
      decreases due
    {
      var j := First(m, due);
      js := js + [j];
      due := due - {j};
    }
    forall k | k in m && m[k] <= now && k !in js
      ensures |js| == limit && forall i :: 0 <= i < |js| ==> Earlier(m, js[i], k)
    {
      assert k in due;
    }
    DueMeans(m, now, limit, js);
  }
}
