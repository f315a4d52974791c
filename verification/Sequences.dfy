/** Removal from a sequence, shared by the linked deque and the allocator's view of it. */
module Sequences {

  /** s without its first x. */
  function Without<T(==)>(s: seq<T>, x: T): (r: seq<T>) {
    if s == [] then [] else if s[0] == x then s[1..] else [s[0]] + Without(s[1..], x)
  }

  lemma {:induction false} WithoutAt<T>(s: seq<T>, k: nat)
    requires k < |s| && forall i :: 0 <= i < k ==> s[i] != s[k]
    ensures Without(s, s[k]) == s[..k] + s[k + 1..]
  {
    if k > 0 {
      WithoutAt(s[1..], k - 1);
      assert s[..k] == [s[0]] + s[1..][..k - 1];
      assert s[1..][k..] == s[k + 1..];
    }
  }

  /** Distinct elements of a set are no more than the set has. */
  lemma {:induction false} DistinctFits<T>(list: seq<T>, all: set<T>)
    requires forall i, j :: 0 <= i < j < |list| ==> list[i] != list[j]
    requires forall i :: 0 <= i < |list| ==> list[i] in all
    ensures |list| <= |all|
    decreases |list|
  {
    if list != [] {
      var rest := list[1..];
      forall i | 0 <= i < |rest| ensures rest[i] in all - {list[0]} {
        assert rest[i] == list[i + 1];
      }
      DistinctFits(rest, all - {list[0]});
    }
  }

  function Below(n: nat): (r: set<nat>)
    ensures |r| == n && forall b: nat :: b in r <==> b < n
  {
    if n == 0 then {} else Below(n - 1) + {n - 1}
  }

  /** n distinct numbers below n are all of them. */
  lemma AllBelow(list: seq<nat>, n: nat)
    requires forall i, j :: 0 <= i < j < |list| ==> list[i] != list[j]
    requires forall i :: 0 <= i < |list| ==> list[i] < n
    requires |list| >= n
    ensures forall b: nat :: b < n ==> b in list
  {
    forall b: nat | b < n ensures b in list {
      if b !in list {
        DistinctFits(list, Below(n) - {b});
      }
    }
  }
}
