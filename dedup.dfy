/**
 * Keep-first de-duplication by key, the behaviour of pandas'
 * drop_duplicates with its default keep="first": a position survives
 * exactly when no earlier position carries the same key, and survivors keep
 * their relative order.
 */
module Dedup {

  predicate StrictlyIncreasing(ps: seq<nat>) {
    forall a, b :: 0 <= a < b < |ps| ==> ps[a] < ps[b]
  }

  /** Position i holds the first occurrence of its key. */
  predicate IsFirst<K(==)>(keys: seq<K>, i: int) {
    0 <= i < |keys| && keys[i] !in keys[..i]
  }

  predicate Distinct<K(==)>(keys: seq<K>) {
    forall a, b :: 0 <= a < b < |keys| ==> keys[a] != keys[b]
  }

  function Range(n: nat): (r: seq<nat>)
    ensures |r| == n && forall i :: 0 <= i < n ==> r[i] == i
  {
    seq(n, i requires 0 <= i < n => i)
  }

  /** The positions that survive de-duplication, in increasing order. */
  function FirstPositions<K(==)>(keys: seq<K>): (ps: seq<nat>)
    ensures |ps| <= |keys| && forall k :: 0 <= k < |ps| ==> ps[k] < |keys|
  {
    if |keys| == 0 then []
    else
      var n := |keys| - 1;
      FirstPositions(keys[..n]) + (if keys[n] in keys[..n] then [] else [n])
  }

  /** The elements of s at positions ps, in the order of ps. */
  function Select<T>(s: seq<T>, ps: seq<nat>): (r: seq<T>)
    requires forall k :: 0 <= k < |ps| ==> ps[k] < |s|
    ensures |r| == |ps| && forall k :: 0 <= k < |ps| ==> r[k] == s[ps[k]]
  {
    seq(|ps|, k requires 0 <= k < |ps| => s[ps[k]])
  }

  /** Extending the keys by one position adds that position exactly when its key is new. */
  lemma FirstPositionsStep<K>(keys: seq<K>, i: nat)
    requires i < |keys|
    ensures FirstPositions(keys[..i + 1]) ==
      FirstPositions(keys[..i]) + (if keys[i] in keys[..i] then [] else [i])
  {
    assert keys[..i + 1][..i] == keys[..i];
  }

  lemma SelectAppend<T>(s: seq<T>, ps: seq<nat>, i: nat)
    requires i < |s| && forall k :: 0 <= k < |ps| ==> ps[k] < |s|
    ensures Select(s, ps + [i]) == Select(s, ps) + [s[i]]
  {
  }

  /** A position survives exactly when it is a first occurrence, and survivors stay in order. */
  lemma {:induction false} FirstPositionsExact<K>(keys: seq<K>)
    ensures forall i :: i in FirstPositions(keys) <==> IsFirst(keys, i)
    ensures StrictlyIncreasing(FirstPositions(keys))
  {
    if |keys| > 0 {
      var n := |keys| - 1;
      var pre := keys[..n];
      FirstPositionsExact(pre);
      forall i | 0 <= i < n
        ensures IsFirst(pre, i) <==> IsFirst(keys, i)
      {
        assert pre[..i] == keys[..i];
      }
    }
  }

  /** No two survivors share a key. */
  lemma SurvivorsDistinct<K>(keys: seq<K>)
    ensures Distinct(Select(keys, FirstPositions(keys)))
  {
    var ps := FirstPositions(keys);
    FirstPositionsExact(keys);
    forall a, b | 0 <= a < b < |ps|
      ensures keys[ps[a]] != keys[ps[b]]
    {
      assert ps[a] in ps && ps[b] in ps;
      assert keys[ps[a]] == keys[..ps[b]][ps[a]];
    }
  }

  /** The first position carrying the key found at position i. */
  lemma {:induction false} FirstOccurrence<K>(keys: seq<K>, i: int) returns (j: int)
    requires 0 <= i < |keys|
    ensures 0 <= j <= i && keys[j] == keys[i] && IsFirst(keys, j)
    decreases i
  {
    if keys[i] in keys[..i] {
      var j' :| 0 <= j' < i && keys[..i][j'] == keys[i];
      j := FirstOccurrence(keys, j');
    } else {
      j := i;
    }
  }

  /** Every element has a survivor with its key, at or before its own position: survivor k. */
  lemma EveryKeySurvives<K>(keys: seq<K>, i: int) returns (k: nat)
    requires 0 <= i < |keys|
    ensures k < |FirstPositions(keys)|
    ensures FirstPositions(keys)[k] <= i && keys[FirstPositions(keys)[k]] == keys[i]
  {
    var ps := FirstPositions(keys);
    FirstPositionsExact(keys);
    var j := FirstOccurrence(keys, i);
    assert j in ps;
    k :| 0 <= k < |ps| && ps[k] == j;
  }

  /** On keys that are already distinct, nothing is dropped. */
  lemma {:induction false} DistinctKeepsAll<K>(keys: seq<K>)
    requires Distinct(keys)
    ensures FirstPositions(keys) == Range(|keys|)
  {
    if |keys| > 0 {
      var n := |keys| - 1;
      DistinctKeepsAll(keys[..n]);
      assert keys[n] !in keys[..n];
    }
  }

  /** De-duplicating a de-duplicated sequence keeps every element. */
  lemma Idempotent<K>(keys: seq<K>)
    ensures FirstPositions(Select(keys, FirstPositions(keys))) == Range(|FirstPositions(keys)|)
  {
    SurvivorsDistinct(keys);
    DistinctKeepsAll(Select(keys, FirstPositions(keys)));
  }
}
