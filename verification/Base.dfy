/** Identifiers and small datatypes shared by every component. */
module Base {

  // Job, group and lock-token identifiers. Their numeric order stands for the byte order
  // by which Redis breaks ties between members of a sorted set.
  type JobId = nat
  type GroupId = nat
  type Token = nat

  // The empty string, which the source uses where no group id is known.
  const NO_GROUP: GroupId := 0

  datatype Option<+T> = None | Some(value: T)

  function Max(a: int, b: int): int {
    if a < b then b else a
  }

  function Min(a: int, b: int): int {
    if a < b then a else b
  }

  /** The list stored at a key; Redis reads an absent key as the empty list. */
  function ListAt<K, V>(m: map<K, seq<V>>, k: K): seq<V> {
    if k in m then m[k] else []
  }

  /** The counter stored at a key; Redis reads an absent key as zero. */
  function CountAt<K>(m: map<K, nat>, k: K): nat {
    if k in m then m[k] else 0
  }

  ghost predicate NoDup<T>(s: seq<T>) {
    forall i, j :: 0 <= i < j < |s| ==> s[i] != s[j]
  }

  lemma SubsetSize<T>(a: set<T>, b: set<T>)
    requires a <= b
    ensures |a| <= |b|
  {
    assert b == a + (b - a);
  }

  lemma Scale(a: nat, b: nat, n: nat)
    requires a <= b
    ensures a * n <= b * n
  {
  }
}
