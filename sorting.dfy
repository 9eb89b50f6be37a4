/** Array.prototype.sort with a comparator `(a, b) => key(b) - key(a)`: a stable sort,
    largest key first. Modelled as insertion sort on sequences. */
module Sorting {
  import opened Seqs

  /** Largest key first. */
  predicate SortedDesc<T>(s: seq<T>, key: T -> real) {
    forall i, j :: 0 <= i < j < |s| ==> key(s[i]) >= key(s[j])
  }

  /** Inserts `x` after every element whose key is at least its own, so that elements with
      equal keys keep their order. */
  function Insert<T(==)>(x: T, s: seq<T>, key: T -> real): (r: seq<T>)
    ensures |r| == |s| + 1
    ensures multiset(r) == multiset(s) + multiset{x}
  {
    if s == [] then [x]
    else if key(s[0]) >= key(x) then
      assert s == [s[0]] + s[1..];
      [s[0]] + Insert(x, s[1..], key)
    else [x] + s
  }

  lemma {:induction false} InsertKeepsSorted<T>(x: T, s: seq<T>, key: T -> real)
    requires SortedDesc(s, key)
    ensures SortedDesc(Insert(x, s, key), key)
  {
    if s != [] && key(s[0]) >= key(x) {
      var rest := Insert(x, s[1..], key);
      InsertKeepsSorted(x, s[1..], key);
      forall k | 0 <= k < |rest| ensures key(s[0]) >= key(rest[k]) {
        assert rest[k] in multiset(rest);
        assert rest[k] == x || rest[k] in multiset(s[1..]);
        if rest[k] != x {
          var j :| 0 <= j < |s[1..]| && s[1..][j] == rest[k];
          assert s[j + 1] == rest[k];
        }
      }
    }
  }

  /** The stable descending sort of `s`. */
  function SortDesc<T(==)>(s: seq<T>, key: T -> real): (r: seq<T>)
    ensures |r| == |s|
    ensures SortedDesc(r, key)
    ensures multiset(r) == multiset(s)
  {
    if s == [] then []
    else
      assert s == s[..|s| - 1] + [s[|s| - 1]];
      var sorted := SortDesc(s[..|s| - 1], key);
      InsertKeepsSorted(s[|s| - 1], sorted, key);
      Insert(s[|s| - 1], sorted, key)
  }

  /** In a sorted sequence the head's key bounds the key of every later element. */
  lemma HeadDominates<T>(s: seq<T>, key: T -> real)
    requires s != [] && SortedDesc(s, key)
    ensures forall x :: x in s[1..] ==> key(s[0]) >= key(x)
  {
    forall x | x in s[1..] ensures key(s[0]) >= key(x) {
      var j :| 0 <= j < |s[1..]| && s[1..][j] == x;
      assert s[j + 1] == x;
    }
  }

  /** A head whose key bounds every key of a sorted tail gives a sorted sequence. */
  lemma ConsSorted<T>(h: T, tail: seq<T>, key: T -> real)
    requires SortedDesc(tail, key)
    requires forall x :: x in tail ==> key(h) >= key(x)
    ensures SortedDesc([h] + tail, key)
  {
    var r := [h] + tail;
    forall i, j | 0 <= i < j < |r| ensures key(r[i]) >= key(r[j]) {
      assert r[j] == tail[j - 1];
      if i > 0 {
        assert r[i] == tail[i - 1];
      }
    }
  }

  /** Filtering keeps a sorted sequence sorted. */
  lemma {:induction false} FilterKeepsSorted<T(!new)>(s: seq<T>, p: T -> bool, key: T -> real)
    requires SortedDesc(s, key)
    ensures SortedDesc(Filter(s, p), key)
  {
    if s != [] {
      var rest := Filter(s[1..], p);
      FilterKeepsSorted(s[1..], p, key);
      if p(s[0]) {
        HeadDominates(s, key);
        ConsSorted(s[0], rest, key);
      }
    }
  }

  /** Strictly descending keys: every element comes strictly before the ones with smaller keys. */
  predicate StrictlyDesc<T>(s: seq<T>, key: T -> real) {
    forall i, j :: 0 <= i < j < |s| ==> key(s[i]) > key(s[j])
  }

  /** Filtering keeps a strictly descending sequence strictly descending, so the elements
      kept stay in their order. */
  lemma {:induction false} FilterKeepsStrictlyDesc<T(!new)>(s: seq<T>, p: T -> bool, key: T -> real)
    requires StrictlyDesc(s, key)
    ensures StrictlyDesc(Filter(s, p), key)
  {
    if s != [] {
      var rest := Filter(s[1..], p);
      FilterKeepsStrictlyDesc(s[1..], p, key);
      if p(s[0]) {
        forall j | 0 <= j < |rest| ensures key(s[0]) > key(rest[j]) {
          assert rest[j] in rest;
          var m :| 0 <= m < |s[1..]| && s[1..][m] == rest[j];
          assert s[m + 1] == rest[j];
        }
        assert Filter(s, p) == [s[0]] + rest;
      }
    }
  }

  /** A prefix of a sorted sequence is sorted, and its keys bound every key after it. */
  lemma SortedPrefix<T>(s: seq<T>, n: nat, key: T -> real)
    requires SortedDesc(s, key) && n <= |s|
    ensures SortedDesc(s[..n], key)
    ensures forall i, u :: 0 <= i < n && u in s[n..] ==> key(s[i]) >= key(u)
  {
    forall i, u | 0 <= i < n && u in s[n..] ensures key(s[i]) >= key(u) {
      var m :| 0 <= m < |s[n..]| && s[n..][m] == u;
      assert s[n + m] == u;
    }
  }
}
