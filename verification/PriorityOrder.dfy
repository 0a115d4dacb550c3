/**
  The order kept by the priority queues of `src/lib/include/queue.h`, as
  sequences. A queue lists its elements from the head's `next` to its `prev`, in
  ascending priority; an element is inserted before the first one whose priority
  is not smaller, and the element taken out is the last one.
  */
module PriorityOrder {

  ghost predicate Ascending(ps: seq<int>) {
    forall i, j :: 0 <= i < j < |ps| ==> ps[i] <= ps[j]
  }

  /** Where `queue_add` stops walking: before the first priority >= p. */
  function Rank(ps: seq<int>, p: int): (k: nat)
    ensures k <= |ps|
    ensures forall i :: 0 <= i < k ==> ps[i] < p
    ensures k < |ps| ==> ps[k] >= p
  {
    RankFrom(ps, p, 0)
  }

  function RankFrom(ps: seq<int>, p: int, from: nat): (k: nat)
    requires from <= |ps|
    ensures from <= k <= |ps|
    ensures forall i :: from <= i < k ==> ps[i] < p
    ensures k < |ps| ==> ps[k] >= p
    decreases |ps| - from
  {
    if from == |ps| || ps[from] >= p then from else RankFrom(ps, p, from + 1)
  }

  lemma RankUnique(ps: seq<int>, p: int, k: nat)
    requires k <= |ps| && (forall i :: 0 <= i < k ==> ps[i] < p)
    requires k < |ps| ==> ps[k] >= p
    ensures k == Rank(ps, p)
  {}

  function InsertAt<T>(s: seq<T>, k: nat, x: T): (r: seq<T>)
    requires k <= |s|
    ensures |r| == |s| + 1
    ensures forall i :: 0 <= i < |r| ==> r[i] == if i < k then s[i] else if i == k then x else s[i - 1]
  {
    seq(|s| + 1, i requires 0 <= i <= |s| => if i < k then s[i] else if i == k then x else s[i - 1])
  }

  function RemoveAt<T>(s: seq<T>, k: nat): (r: seq<T>)
    requires k < |s|
    ensures |r| == |s| - 1
    ensures forall i :: 0 <= i < |r| ==> r[i] == if i < k then s[i] else s[i + 1]
  {
    seq(|s| - 1, i requires 0 <= i < |s| - 1 => if i < k then s[i] else s[i + 1])
  }

  lemma InsertAscending(ps: seq<int>, p: int)
    requires Ascending(ps)
    ensures Ascending(InsertAt(ps, Rank(ps, p), p))
  {}

  lemma RemoveAscending(ps: seq<int>, k: nat)
    requires Ascending(ps) && k < |ps|
    ensures Ascending(RemoveAt(ps, k))
  {}

  lemma InsertElements<T>(s: seq<T>, k: nat, x: T)
    requires k <= |s|
    ensures multiset(InsertAt(s, k, x)) == multiset(s) + multiset{x}
  {
    assert InsertAt(s, k, x) == s[..k] + [x] + s[k..];
    assert s == s[..k] + s[k..];
  }

  lemma RemoveElements<T>(s: seq<T>, k: nat)
    requires k < |s|
    ensures multiset(RemoveAt(s, k)) + multiset{s[k]} == multiset(s)
  {
    assert RemoveAt(s, k) == s[..k] + s[k + 1..];
    assert s == s[..k] + [s[k]] + s[k + 1..];
  }
}
