/** The distributed lock: a key set only if absent, with a time to live, and deleted only by its owner's token. */
module Lock {
  import opened Base

  type ActorId = nat

  datatype Lease = Lease(token: Token, expires: nat)

  /** One lock key, the clock, the tokens handed out so far, and who is between acquiring and releasing. */
  datatype LockState = LockState(lock: Option<Lease>, now: nat, tokens: nat, holders: map<ActorId, Lease>)
  {
    /** The key is absent: never set, deleted, or expired. */
    predicate Free() {
      lock.None? || lock.value.expires <= now
    }

    function Take(a: ActorId, ttl: nat): LockState {
      var lease := Lease(tokens, now + ttl);
      this.(lock := Some(lease), tokens := tokens + 1, holders := holders[a := lease])
    }

    predicate Owns(token: Token) {
      !Free() && lock.value.token == token
    }

    function Release(a: ActorId): LockState
      requires a in holders
    {
      this.(lock := if Owns(holders[a].token) then None else lock, holders := holders - {a})
    }

    /** a crashes inside its callback and never releases. */
    function Abandon(a: ActorId): LockState {
      this.(holders := holders - {a})
    }

    /** a still runs within the time its lease allows. */
    predicate InTime(a: ActorId) {
      a in holders && now < holders[a].expires
    }

    ghost predicate LeaseOk(a: ActorId, ttl: nat)
      requires a in holders
    {
      && holders[a].token < tokens && holders[a].expires <= now + ttl
      && (lock == Some(holders[a]) || holders[a].expires <= now)
    }

    /** The lease of a ran out before that of b began, or the other way round. */
    ghost predicate Apart(a: ActorId, b: ActorId, ttl: nat)
      requires a in holders && b in holders
    {
      && holders[a].token != holders[b].token
      && (holders[a].expires + ttl <= holders[b].expires || holders[b].expires + ttl <= holders[a].expires)
    }

    ghost predicate Inv(ttl: nat) {
      && (lock.Some? ==> lock.value.token < tokens)
      && (forall a :: a in holders ==> LeaseOk(a, ttl))
      && (forall a, b :: a in holders && b in holders && a != b ==> Apart(a, b, ttl))
    }
  }

  lemma TakeKeeps(s: LockState, a: ActorId, ttl: nat)
    requires s.Inv(ttl) && s.Free()
    ensures s.Take(a, ttl).Inv(ttl)
  {
    var s' := s.Take(a, ttl);
    forall b | b in s'.holders
      ensures s'.LeaseOk(b, ttl)
      ensures b != a ==> s'.Apart(a, b, ttl) && s'.Apart(b, a, ttl)
    {
      assert b != a ==> s.LeaseOk(b, ttl);
    }
    forall b, d | b in s'.holders && d in s'.holders && b != d && b != a && d != a
      ensures s'.Apart(b, d, ttl)
    {
      assert s.Apart(b, d, ttl);
    }
  }

  lemma DropKeeps(s: LockState, a: ActorId, s': LockState, ttl: nat)
    requires s.Inv(ttl) && s'.holders == s.holders - {a} && s'.now == s.now && s'.tokens == s.tokens
    requires
      || s'.lock == s.lock
      || (s'.lock.None? && s.lock.Some? && a in s.holders && s.lock.value.token == s.holders[a].token)
    ensures s'.Inv(ttl)
  {
    forall b | b in s'.holders
      ensures s'.LeaseOk(b, ttl)
    {
      assert s.LeaseOk(b, ttl);
      assert a in s.holders ==> s.Apart(a, b, ttl);
    }
    forall b, d | b in s'.holders && d in s'.holders && b != d
      ensures s'.Apart(b, d, ttl)
    {
      assert s.Apart(b, d, ttl);
    }
  }

  lemma WaitKeeps(s: LockState, d: nat, ttl: nat)
    requires s.Inv(ttl)
    ensures s.(now := s.now + d).Inv(ttl)
  {
  }

  /** A release by anyone but the holder in time leaves that holder's lock where it is. */
  lemma StaleReleaseHarmless(s: LockState, a: ActorId, b: ActorId, ttl: nat)
    requires s.Inv(ttl) && a in s.holders && a != b && s.InTime(b)
    ensures s.lock == Some(s.holders[b]) && s.Release(a).lock == s.lock
  {
  }

  datatype Event = Acquire(a: ActorId) | Return(a: ActorId) | Crash(a: ActorId) | Tick(d: nat)

  /** An attempt to acquire by somebody who is not in a callback; it succeeds when the key is absent. */
  predicate Enabled(s: LockState, e: Event) {
    match e
    case Acquire(a) => a !in s.holders
    case Return(a) => a in s.holders
    case _ => true
  }

  function Next(s: LockState, e: Event, ttl: nat): LockState
    requires Enabled(s, e)
  {
    match e
    case Acquire(a) => if s.Free() then s.Take(a, ttl) else s
    case Return(a) => s.Release(a)
    case Crash(a) => s.Abandon(a)
    case Tick(d) => s.(now := s.now + d)
  }

  function Start(now: nat): LockState {
    LockState(None, now, 0, map[])
  }

  ghost predicate Run(s: LockState, es: seq<Event>, s': LockState, ttl: nat)
    decreases |es|
  {
    if es == [] then s == s' else Enabled(s, es[0]) && Run(Next(s, es[0], ttl), es[1..], s', ttl)
  }

  lemma {:induction false} RunKeeps(s: LockState, es: seq<Event>, s': LockState, ttl: nat)
    requires s.Inv(ttl) && Run(s, es, s', ttl)
    ensures s'.Inv(ttl)
    decreases |es|
  {
    if es != [] {
      match es[0] {
        case Acquire(a) =>
          if s.Free() {
            TakeKeeps(s, a, ttl);
          }
        case Return(a) => DropKeeps(s, a, s.Release(a), ttl);
        case Crash(a) => DropKeeps(s, a, s.Abandon(a), ttl);
        case Tick(d) => WaitKeeps(s, d, ttl);
      }
      RunKeeps(Next(s, es[0], ttl), es[1..], s', ttl);
    }
  }

  /** Exclusion in time: of two callbacks that overlap, the one that began earlier had outlived its time to
      live when the other began; so at most one runs in time, the key is its own, and nobody else's release
      takes it away. */
  lemma LockExcludes(now: nat, es: seq<Event>, s: LockState, ttl: nat, a: ActorId, b: ActorId)
    requires Run(Start(now), es, s, ttl) && a in s.holders && b in s.holders && a != b
    ensures s.holders[a].expires <= s.holders[b].expires - ttl || s.holders[b].expires <= s.holders[a].expires - ttl
    ensures s.InTime(b) ==> !s.InTime(a) && s.lock == Some(s.holders[b]) && s.Release(a).lock == s.lock
  {
    RunKeeps(Start(now), es, s, ttl);
    assert s.Apart(a, b, ttl) && s.LeaseOk(a, ttl) && s.LeaseOk(b, ttl);
    if s.InTime(b) {
      StaleReleaseHarmless(s, a, b, ttl);
    }
  }

  /** And the lock comes back: in every reachable state, after a time to live without a new acquisition, or once its
      holder in time has released it, an attempt succeeds. */
  lemma LockReturns(now: nat, es: seq<Event>, s: LockState, ttl: nat, a: ActorId, b: ActorId)
    requires Run(Start(now), es, s, ttl) && b !in s.holders
    ensures b in Next(Next(s, Tick(ttl), ttl), Acquire(b), ttl).holders
    ensures a in s.holders && s.InTime(a) ==> b in Next(Next(s, Return(a), ttl), Acquire(b), ttl).holders
  {
    RunKeeps(Start(now), es, s, ttl);
    LeaseShort(now, es, s, ttl);
    if a in s.holders {
      assert s.LeaseOk(a, ttl);
    }
  }

  lemma {:induction false} LeasesShort(s: LockState, es: seq<Event>, s': LockState, ttl: nat)
    requires Run(s, es, s', ttl) && (s.lock.Some? ==> s.lock.value.expires <= s.now + ttl)
    ensures s'.lock.Some? ==> s'.lock.value.expires <= s'.now + ttl
    decreases |es|
  {
    if es != [] {
      LeasesShort(Next(s, es[0], ttl), es[1..], s', ttl);
    }
  }

  /** No lease outlasts a time to live. */
  lemma LeaseShort(now: nat, es: seq<Event>, s: LockState, ttl: nat)
    requires Run(Start(now), es, s, ttl)
    ensures s.lock.Some? ==> s.lock.value.expires <= s.now + ttl
  {
    LeasesShort(Start(now), es, s, ttl);
  }

  class DistributedLockService {
    const lockTtlMs: nat
    const lockRetryCount: nat
    var lock: Option<Lease>

    constructor (lockTtlMs: nat, lockRetryCount: nat)
      ensures lock == None && this.lockTtlMs == lockTtlMs && this.lockRetryCount == lockRetryCount
    {
      this.lockTtlMs, this.lockRetryCount := lockTtlMs, lockRetryCount;
      lock := None;
    }

    predicate Absent(now: nat)
      reads this
    {
      lock.None? || lock.value.expires <= now
    }

    /** The acquire-lock script. */
    method TrySet(token: Token, now: nat) returns (acquired: bool)
      modifies this
      ensures acquired <==> old(lock).None? || old(lock).value.expires <= now
      ensures lock == if acquired then Some(Lease(token, now + lockTtlMs)) else old(lock)
    {
      acquired := Absent(now);
      if acquired {
        lock := Some(Lease(token, now + lockTtlMs));
      }
    }

    /** Attempts spread over the clock readings of `clock`; nobody else touches the key meanwhile. The first
        attempt that finds the key absent takes it, and there are at most lockRetryCount + 1 attempts. */
    method Acquire(token: Token, clock: seq<nat>) returns (acquired: bool, attempts: nat)
      requires |clock| == lockRetryCount + 1
      modifies this
      ensures 1 <= attempts <= lockRetryCount + 1
      ensures attempts > 1 ==>
        old(lock).Some? && forall i :: 0 <= i < attempts - 1 ==> clock[i] < old(lock).value.expires
      ensures acquired ==> old(lock).None? || old(lock).value.expires <= clock[attempts - 1]
      ensures acquired ==> lock == Some(Lease(token, clock[attempts - 1] + lockTtlMs))
      ensures !acquired ==> attempts == lockRetryCount + 1 && lock == old(lock)
      ensures !acquired ==> old(lock).Some? && clock[lockRetryCount] < old(lock).value.expires
    {
      attempts := 0;
      while attempts <= lockRetryCount
        invariant attempts <= lockRetryCount + 1 && lock == old(lock)
        invariant attempts > 0 ==>
          old(lock).Some? && forall i :: 0 <= i < attempts ==> clock[i] < old(lock).value.expires
      {
        var done := TrySet(token, clock[attempts]);
        attempts := attempts + 1;
        if done {
          return true, attempts;
        }
      }
      assert attempts - 1 == lockRetryCount;
      return false, attempts;
    }

    /** The release-lock script. */
    method Release(token: Token, now: nat) returns (released: bool)
      modifies this
      ensures released <==> old(lock).Some? && now < old(lock).value.expires && old(lock).value.token == token
      ensures lock == if released then None else old(lock)
    {
      released := !Absent(now) && lock.value.token == token;
      if released {
        lock := None;
      }
    }
  }
}
