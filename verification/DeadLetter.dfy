/** Operator actions on the dead-letter list, each run by itself. Entries are compared as their stored text is:
    two entries are the same if all their fields are. */
module DeadLetter {
  import opened Base
  import opened ReliableQueue

  datatype Entry = Entry(dead: DeadEntry, error: string)

  /** s without any copy of the entries in drop, in the order of s. */
  function Without(s: seq<Entry>, drop: set<Entry>): seq<Entry> {
    if s == [] then []
    else Without(s[..|s| - 1], drop) + if s[|s| - 1] in drop then [] else [s[|s| - 1]]
  }

  function Expired(s: seq<Entry>, cutoff: int): set<Entry> {
    set e | e in s && e.dead.failedAt < cutoff
  }

  function Jobs(s: seq<Entry>): (ids: seq<JobId>)
    ensures |ids| == |s| && forall i :: 0 <= i < |s| ==> ids[i] == s[i].dead.job
  {
    seq(|s|, i requires 0 <= i < |s| => s[i].dead.job)
  }

  lemma WithoutLast(s: seq<Entry>, last: Entry, drop: set<Entry>)
    ensures Without(s + [last], drop) == Without(s, drop) + if last in drop then [] else [last]
  {
  }

  lemma {:induction false} WithoutTwice(s: seq<Entry>, d: set<Entry>, e: set<Entry>)
    ensures Without(Without(s, d), e) == Without(s, d + e)
  {
    if s != [] {
      var init, last := s[..|s| - 1], s[|s| - 1];
      WithoutTwice(init, d, e);
      assert s == init + [last];
      WithoutLast(init, last, d);
      WithoutLast(init, last, d + e);
      if last !in d {
        WithoutLast(Without(init, d), last, e);
      } else {
        assert Without(init, d) + [] == Without(init, d);
      }
    }
  }

  /** Filtering keeps every copy of what it keeps, and nothing of what it drops. */
  lemma {:induction false} WithoutCopies(s: seq<Entry>, drop: set<Entry>, e: Entry)
    ensures multiset(Without(s, drop))[e] == if e in drop then 0 else multiset(s)[e]
  {
    if s != [] {
      WithoutCopies(s[..|s| - 1], drop, e);
      assert s == s[..|s| - 1] + [s[|s| - 1]];
    }
  }

  /** kept is s read at increasing positions. */
  ghost predicate ReadAt(at: seq<nat>, s: seq<Entry>, kept: seq<Entry>) {
    && |at| == |kept|
    && (forall i :: 0 <= i < |at| ==> at[i] < |s| && s[at[i]] == kept[i])
    && (forall i, k :: 0 <= i < k < |at| ==> at[i] < at[k])
  }

  lemma ReadOneMore(at: seq<nat>, s: seq<Entry>, kept: seq<Entry>, last: Entry)
    requires ReadAt(at, s, kept)
    ensures ReadAt(at, s + [last], kept) && ReadAt(at + [|s|], s + [last], kept + [last])
  {
  }

  /** It also keeps the order: what is kept is s read at increasing positions. */
  lemma {:induction false} WithoutOrder(s: seq<Entry>, drop: set<Entry>) returns (at: seq<nat>)
    ensures ReadAt(at, s, Without(s, drop))
  {
    at := [];
    if s != [] {
      var init, last := s[..|s| - 1], s[|s| - 1];
      at := WithoutOrder(init, drop);
      ReadOneMore(at, init, Without(init, drop), last);
      WithoutLast(init, last, drop);
      assert s == init + [last];
      assert Without(init, drop) + [] == Without(init, drop);
      if last !in drop {
        at := at + [|init|];
      }
    }
  }

  lemma WithoutNothing(s: seq<Entry>, drop: set<Entry>)
    requires forall e :: e in drop ==> e !in s
    ensures Without(s, drop) == s
  {
  }

  function CountExpired(s: seq<Entry>, cutoff: int): nat {
    if s == [] then 0
    else CountExpired(s[..|s| - 1], cutoff) + if s[|s| - 1].dead.failedAt < cutoff then 1 else 0
  }

  /** Every entry is either kept or counted as expired, duplicates included. */
  lemma {:induction false} KeptAndExpired(s: seq<Entry>, all: seq<Entry>, cutoff: int)
    requires forall e :: e in s ==> e in all
    ensures |Without(s, Expired(all, cutoff))| + CountExpired(s, cutoff) == |s|
  {
    if s != [] {
      assert s[|s| - 1] in s;
      KeptAndExpired(s[..|s| - 1], all, cutoff);
    }
  }

  /** One more entry looked at. */
  lemma ExpiredStep(s: seq<Entry>, i: nat, cutoff: int)
    requires i < |s|
    ensures CountExpired(s[..i + 1], cutoff)
      == CountExpired(s[..i], cutoff) + if s[i].dead.failedAt < cutoff then 1 else 0
    ensures Expired(s[..i + 1], cutoff)
      == if s[i].dead.failedAt < cutoff then Expired(s[..i], cutoff) + {s[i]} else Expired(s[..i], cutoff)
  {
    assert s[..i + 1][..i] == s[..i];
    forall e: Entry
      ensures e in s[..i + 1] <==> e in s[..i] || e == s[i]
    {
      assert s[..i + 1] == s[..i] + [s[i]];
    }
  }

  /** Of every entry, all copies go if it failed before the cutoff, and all stay if not. */
  lemma CleanedCopies(s: seq<Entry>, cutoff: int)
    ensures forall e ::
      multiset(Without(s, Expired(s, cutoff)))[e] == if e.dead.failedAt < cutoff then 0 else multiset(s)[e]
  {
    forall e: Entry
      ensures multiset(Without(s, Expired(s, cutoff)))[e] == if e.dead.failedAt < cutoff then 0 else multiset(s)[e]
    {
      WithoutCopies(s, Expired(s, cutoff), e);
      assert e !in s ==> multiset(s)[e] == 0;
    }
  }

  class DeadLetterService {
    const retentionMs: nat
    var dlq: seq<Entry>
    var ready: seq<JobId>
    var retries: map<JobId, nat>

    constructor (retentionMs: nat, dlq: seq<Entry>, ready: seq<JobId>, retries: map<JobId, nat>)
      ensures this.retentionMs == retentionMs && this.dlq == dlq && this.ready == ready && this.retries == retries
    {
      this.retentionMs, this.dlq, this.ready, this.retries := retentionMs, dlq, ready, retries;
    }

    /** Deletes the list and writes it anew without the entry's copies. */
    method RemoveFromDLQ(entry: Entry)
      modifies this`dlq
      ensures dlq == Without(old(dlq), {entry})
    {
      var all := dlq;
      dlq := [];
      for i := 0 to |all|
        invariant dlq == Without(all[..i], {entry})
      {
        assert all[..i + 1][..i] == all[..i];
        if all[i] != entry {
          dlq := dlq + [all[i]];
        }
      }
      assert all[..|all|] == all;
    }

    method Inject(j: JobId)
      modifies this`retries, this`ready
      ensures retries == old(retries)[j := 0] && ready == old(ready) + [j]
    {
      retries := retries[j := 0];
      ready := ready + [j];
    }

    /** Injects the job of the first entry for it, and drops every copy of that entry. */
    method Retry(j: JobId) returns (found: bool)
      modifies this
      ensures found <==> j in Jobs(old(dlq))
      ensures !found ==> dlq == old(dlq) && ready == old(ready) && retries == old(retries)
      ensures found ==> ready == old(ready) + [j] && retries == old(retries)[j := 0]
      ensures found ==> exists i: nat ::
        && i < |old(dlq)| && old(dlq)[i].dead.job == j && j !in Jobs(old(dlq)[..i])
        && dlq == Without(old(dlq), {old(dlq)[i]})
    {
      var entries := dlq;
      for i := 0 to |entries|
        invariant dlq == old(dlq) && ready == old(ready) && retries == old(retries)
        invariant j !in Jobs(entries[..i])
      {
        if entries[i].dead.job == j {
          Inject(j);
          RemoveFromDLQ(entries[i]);
          assert Jobs(entries)[i] == j;
          return true;
        }
      }
      assert entries[..|entries|] == entries;
      return false;
    }

    /** Injects every entry's job in list order, duplicates as often as they are listed. */
    method RetryAll() returns (count: nat)
      modifies this
      ensures count == |old(dlq)| && dlq == [] && ready == old(ready) + Jobs(old(dlq))
      ensures forall k :: k in retries <==> k in old(retries) || k in Jobs(old(dlq))
      ensures forall k :: k in retries ==> retries[k] == if k in Jobs(old(dlq)) then 0 else old(retries)[k]
    {
      count := 0;
      while dlq != []
        invariant count <= |old(dlq)| && dlq == old(dlq)[count..]
        invariant ready == old(ready) + Jobs(old(dlq)[..count])
        invariant forall k :: k in retries <==> k in old(retries) || k in Jobs(old(dlq)[..count])
        invariant forall k :: k in retries ==> retries[k] == if k in Jobs(old(dlq)[..count]) then 0 else old(retries)[k]
        decreases |dlq|
      {
        var entry := dlq[0];
        dlq := dlq[1..];
        Inject(entry.dead.job);
        assert Jobs(old(dlq)[..count + 1]) == Jobs(old(dlq)[..count]) + [entry.dead.job];
        count := count + 1;
      }
      assert old(dlq)[..count] == old(dlq);
    }

    method Purge(j: JobId) returns (found: bool)
      modifies this`dlq
      ensures found <==> j in Jobs(old(dlq))
      ensures !found ==> dlq == old(dlq)
      ensures found ==> exists i: nat ::
        && i < |old(dlq)| && old(dlq)[i].dead.job == j && j !in Jobs(old(dlq)[..i])
        && dlq == Without(old(dlq), {old(dlq)[i]})
    {
      var entries := dlq;
      for i := 0 to |entries|
        invariant dlq == old(dlq) && j !in Jobs(entries[..i])
      {
        if entries[i].dead.job == j {
          RemoveFromDLQ(entries[i]);
          assert Jobs(entries)[i] == j;
          return true;
        }
      }
      assert entries[..|entries|] == entries;
      return false;
    }

    /** The loop over the list as it was read at the beginning. */
    method RemoveExpired(cutoff: int) returns (removed: nat)
      modifies this`dlq
      ensures dlq == Without(old(dlq), Expired(old(dlq), cutoff)) && removed == CountExpired(old(dlq), cutoff)
    {
      var entries := dlq;
      removed := 0;
      WithoutNothing(entries, {});
      assert Expired(entries[..0], cutoff) == {};
      for i := 0 to |entries|
        invariant dlq == Without(entries, Expired(entries[..i], cutoff))
        invariant removed == CountExpired(entries[..i], cutoff)
      {
        ExpiredStep(entries, i, cutoff);
        if entries[i].dead.failedAt < cutoff {
          WithoutTwice(entries, Expired(entries[..i], cutoff), {entries[i]});
          RemoveFromDLQ(entries[i]);
          removed := removed + 1;
        }
      }
      assert entries[..|entries|] == entries;
    }

    /** Deleting and rewriting once per expired entry comes to one order-preserving filter, which drops all copies of
        what failed before the cutoff and keeps all others, and the count is the difference in length even where
        entries repeat. */
    method Cleanup(now: nat, olderThanMs: Option<nat>) returns (removed: nat)
      modifies this`dlq
      ensures var cutoff := now - if olderThanMs.Some? then olderThanMs.value else retentionMs;
        && dlq == Without(old(dlq), Expired(old(dlq), cutoff))
        && forall e :: multiset(dlq)[e] == if e.dead.failedAt < cutoff then 0 else multiset(old(dlq))[e]
      ensures removed == |old(dlq)| - |dlq|
    {
      var retention := if olderThanMs.Some? then olderThanMs.value else retentionMs;
      removed := RemoveExpired(now - retention);
      KeptAndExpired(old(dlq), old(dlq), now - retention);
      CleanedCopies(old(dlq), now - retention);
    }
  }
}
