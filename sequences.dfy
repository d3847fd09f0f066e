/**
 * List operations of the source, on sequences: uniqueness, `list.remove` (first occurrence),
 * and the comprehension `[m[k] for k in ids if k in m]` that every id-list lookup uses.
 */
module Sequences {

  predicate Distinct<T(==)>(s: seq<T>)
  {
    forall i, j :: 0 <= i < j < |s| ==> s[i] != s[j]
  }

  /** Concatenation can be regrouped. */
  lemma AppendAssoc<T>(a: seq<T>, b: seq<T>, c: seq<T>)
    ensures (a + b) + c == a + (b + c)
  {
  }

  /** A prefix one longer is the prefix and the next element. */
  lemma TakeSnoc<T>(s: seq<T>, i: nat)
    requires i < |s|
    ensures s[..i + 1] == s[..i] + [s[i]]
  {
  }

  /** `s` without the element `x` (every copy; a distinct sequence has at most one). */

  function Without<T(==,!new)>(s: seq<T>, x: T): (r: seq<T>)
    ensures x !in r
    ensures forall y :: y in r <==> y in s && y != x
    ensures Distinct(s) ==> Distinct(r)
    ensures x !in s ==> r == s
  {
    if s == [] then []
    else if s[0] == x then Without(s[1..], x)
    else
      var rest := Without(s[1..], x);
      assert Distinct(s) ==> s[0] !in s[1..];
      [s[0]] + rest
  }

  /** The index of the first `x` in `s`. */
  function FirstIndex<T(==)>(s: seq<T>, x: T): (i: nat)
    requires x in s
    ensures i < |s| && s[i] == x
    ensures forall j :: 0 <= j < i ==> s[j] != x
  {
    if s[0] == x then 0 else 1 + FirstIndex(s[1..], x)
  }

  /** The first index is the only index holding `x` with no `x` before it. */
  lemma FirstIndexUnique<T>(s: seq<T>, x: T, i: nat)
    requires i < |s| && s[i] == x && forall j :: 0 <= j < i ==> s[j] != x
    ensures FirstIndex(s, x) == i
  {
  }

  /** Appending keeps the first index of an element already present, and puts a new element at the end. */
  lemma FirstIndexAppend<T>(s: seq<T>, y: T, x: T)
    requires x in s + [y]
    ensures x in s ==> FirstIndex(s + [y], x) == FirstIndex(s, x)
    ensures x !in s ==> FirstIndex(s + [y], x) == |s|
  {
    if x in s {
      FirstIndexUnique(s + [y], x, FirstIndex(s, x));
    } else {
      FirstIndexUnique(s + [y], x, |s|);
    }
  }

  /** `s.remove(x)` when `x` is present; `s` unchanged otherwise. */
  function RemoveFirst<T(==)>(s: seq<T>, x: T): (r: seq<T>)
    ensures x !in s ==> r == s
    ensures x in s ==> |r| == |s| - 1
  {
    if s == [] then []
    else if s[0] == x then s[1..]
    else [s[0]] + RemoveFirst(s[1..], x)
  }

  /** Removing the first `x` cuts it out at its first index and keeps the rest in order. */
  lemma {:induction false} RemoveFirstAt<T>(s: seq<T>, x: T)
    requires x in s
    ensures RemoveFirst(s, x) == s[..FirstIndex(s, x)] + s[FirstIndex(s, x) + 1..]
  {
    if s[0] != x {
      RemoveFirstAt(s[1..], x);
      var i := FirstIndex(s[1..], x);
      assert s[1..][..i] == s[1..i + 1];
      assert s[..i + 1] == [s[0]] + s[1..i + 1];
      assert s[1..][i + 1..] == s[i + 2..];
    }
  }

  /** Removing the first `x` takes exactly one `x` away and nothing else. */
  lemma {:induction false} RemoveFirstMultiset<T>(s: seq<T>, x: T)
    requires x in s
    ensures multiset(RemoveFirst(s, x)) == multiset(s) - multiset{x}
  {
    if s[0] != x {
      RemoveFirstMultiset(s[1..], x);
      assert s == [s[0]] + s[1..];
    } else {
      assert s == [x] + s[1..];
    }
  }

  /** Removing from a sequence without repeats leaves one without repeats and without `x`. */
  lemma RemoveFirstDistinct<T>(s: seq<T>, x: T)
    requires Distinct(s)
    ensures Distinct(RemoveFirst(s, x)) && x !in RemoveFirst(s, x)
  {
    if x in s {
      RemoveFirstAt(s, x);
      var i := FirstIndex(s, x);
      var r := s[..i] + s[i + 1..];
      assert forall a :: 0 <= a < |r| ==> r[a] == (if a < i then s[a] else s[a + 1]);
    }
  }

  /** `[m[k] for k in ids if k in m]`: the values of the ids that are keys of `m`, in id order; dangling ids are skipped. */
  function Present<K(==), V>(ids: seq<K>, m: map<K, V>): (r: seq<V>)
    ensures |r| <= |ids|
    ensures forall v :: v in r ==> exists k :: k in ids && k in m && m[k] == v
  {
    if ids == [] then []
    else (if ids[0] in m then [m[ids[0]]] else []) + Present(ids[1..], m)
  }

  /** Looking up two lists in a row is looking up their concatenation. */
  lemma {:induction false} PresentAppend<K, V>(a: seq<K>, b: seq<K>, m: map<K, V>)
    ensures Present(a + b, m) == Present(a, m) + Present(b, m)
  {
    if a != [] {
      assert (a + b)[1..] == a[1..] + b;
      PresentAppend(a[1..], b, m);
    } else {
      assert a + b == b;
    }
  }

  /** When every id resolves, nothing is skipped: the result lines up with the ids. */
  lemma {:induction false} PresentAll<K, V>(ids: seq<K>, m: map<K, V>)
    requires forall k :: k in ids ==> k in m
    ensures |Present(ids, m)| == |ids|
    ensures forall i :: 0 <= i < |ids| ==> Present(ids, m)[i] == m[ids[i]]
  {
    if ids != [] {
      PresentAll(ids[1..], m);
    }
  }
}
