/** Generic sequence helpers shared by the table model: optional values,
    order-preserving filtering (a `WHERE` clause), first-match lookup (a
    `findOne`), key uniqueness (a primary key or unique index) and sorting
    by an integer key (an `ORDER BY`). */
module Seqs {

  datatype Option<T> = None | Some(value: T)

  /** The elements of `s` that satisfy `p`, in their original order. */
  function Filter<T(!new)>(s: seq<T>, p: T -> bool): (r: seq<T>)
    ensures |r| <= |s|
    ensures forall x :: x in r <==> x in s && p(x)
    ensures forall x :: multiset(r)[x] == if p(x) then multiset(s)[x] else 0
  {
    if s == [] then []
    else
      assert s == [s[0]] + s[1..];
      if p(s[0]) then [s[0]] + Filter(s[1..], p) else Filter(s[1..], p)
  }

  /** The index of the first element of `s` that satisfies `p`, if any. */
  function FindFirst<T>(s: seq<T>, p: T -> bool): (r: Option<nat>)
    ensures r.Some? ==> r.value < |s| && p(s[r.value])
    ensures r.Some? ==> forall j :: 0 <= j < r.value ==> !p(s[j])
    ensures r.None? <==> forall j :: 0 <= j < |s| ==> !p(s[j])
  {
    if s == [] then None
    else if p(s[0]) then Some(0)
    else match FindFirst(s[1..], p)
      case None => None
      case Some(k) => Some(k + 1)
  }

  /** No two elements of `s` share a key. */
  /** The first match is the index before which nothing matches. */
  lemma FindFirstIs<T>(s: seq<T>, p: T -> bool, i: nat)
    requires i < |s| && p(s[i])
    requires forall j :: 0 <= j < i ==> !p(s[j])
    ensures FindFirst(s, p) == Some(i)
  {
  }

  /** The first match in `s + [x]`: the first in `s`, else `x` if it matches. */
  lemma FindFirstSnoc<T>(s: seq<T>, x: T, p: T -> bool)
    ensures FindFirst(s + [x], p) ==
            if FindFirst(s, p).Some? then FindFirst(s, p) else if p(x) then Some(|s|) else None
  {
    var r := s + [x];
    match FindFirst(s, p)
    case Some(i) =>
      FindFirstIs(r, p, i);
    case None =>
      if p(x) {
        FindFirstIs(r, p, |s|);
      } else {
        assert forall j :: 0 <= j < |r| ==> !p(r[j]) by {
          forall j | 0 <= j < |r| ensures !p(r[j]) {
            if j < |s| { assert r[j] == s[j]; }
          }
        }
      }
  }

  /** Two sequences on which a test agrees position by position have the
      same first match. */
  lemma {:induction false} FindFirstAgrees<T>(s: seq<T>, t: seq<T>, p: T -> bool)
    requires |s| == |t|
    requires forall k :: 0 <= k < |s| ==> p(s[k]) == p(t[k])
    ensures FindFirst(s, p) == FindFirst(t, p)
  {
    if s != [] {
      FindFirstAgrees(s[1..], t[1..], p);
    }
  }

  ghost predicate UniqueBy<T, K>(s: seq<T>, key: T -> K) {
    forall i, j :: 0 <= i < j < |s| ==> key(s[i]) != key(s[j])
  }

  lemma UniqueByCons<T, K>(x: T, r: seq<T>, key: T -> K)
    requires UniqueBy(r, key)
    requires forall y :: y in r ==> key(y) != key(x)
    ensures UniqueBy([x] + r, key)
  {
    var s := [x] + r;
    forall i, j | 0 <= i < j < |s| ensures key(s[i]) != key(s[j]) {
      assert s[j] == r[j - 1];
      if i == 0 { assert r[j - 1] in r; } else { assert s[i] == r[i - 1]; }
    }
  }

  lemma UniqueByAppend<T, K>(s: seq<T>, x: T, key: T -> K)
    requires UniqueBy(s, key)
    requires forall y :: y in s ==> key(y) != key(x)
    ensures UniqueBy(s + [x], key)
  {
    var r := s + [x];
    forall i, j | 0 <= i < j < |r| ensures key(r[i]) != key(r[j]) {
      if j == |s| { assert r[i] in s; }
    }
  }

  lemma UniqueByUpdate<T, K>(s: seq<T>, i: nat, x: T, key: T -> K)
    requires UniqueBy(s, key)
    requires i < |s| && key(x) == key(s[i])
    ensures UniqueBy(s[i := x], key)
  {
  }

  /** `s` without its element at `i`. */
  function RemoveAt<T>(s: seq<T>, i: nat): (r: seq<T>)
    requires i < |s|
    ensures |r| == |s| - 1
    ensures forall k :: 0 <= k < i ==> r[k] == s[k]
    ensures forall k :: i <= k < |r| ==> r[k] == s[k + 1]
    ensures multiset(r) == multiset(s) - multiset{s[i]}
  {
    assert s == s[..i] + [s[i]] + s[i + 1..];
    s[..i] + s[i + 1..]
  }

  lemma UniqueByRemove<T, K>(s: seq<T>, i: nat, key: T -> K)
    requires UniqueBy(s, key) && i < |s|
    ensures UniqueBy(RemoveAt(s, i), key)
    ensures forall x :: x in RemoveAt(s, i) <==> x in s && key(x) != key(s[i])
  {
    var r := RemoveAt(s, i);
    forall a, b | 0 <= a < b < |r| ensures key(r[a]) != key(r[b]) {
      var a' := if a < i then a else a + 1;
      var b' := if b < i then b else b + 1;
      assert r[a] == s[a'] && r[b] == s[b'];
    }
    forall x | x in s && key(x) != key(s[i]) ensures x in r {
      var k :| 0 <= k < |s| && s[k] == x;
      if k < i { assert r[k] == x; } else { assert k > i && r[k - 1] == x; }
    }
    forall x | x in r ensures key(x) != key(s[i]) {
      var k :| 0 <= k < |r| && r[k] == x;
      if k < i { assert s[k] == x; } else { assert s[k + 1] == x; }
    }
  }

  lemma {:induction false} UniqueByFilter<T(!new), K>(s: seq<T>, p: T -> bool, key: T -> K)
    requires UniqueBy(s, key)
    ensures UniqueBy(Filter(s, p), key)
  {
    if s != [] {
      assert s == [s[0]] + s[1..];
      UniqueByFilter(s[1..], p, key);
      if p(s[0]) {
        var tail := Filter(s[1..], p);
        forall y | y in tail ensures key(y) != key(s[0]) {
          var k :| 0 <= k < |s[1..]| && s[1..][k] == y;
          assert s[k + 1] == y;
        }
        UniqueByCons(s[0], tail, key);
      }
    }
  }

  /** `s` is in ascending order of `key`. */
  ghost predicate SortedByKey<T>(s: seq<T>, key: T -> int) {
    forall i, j :: 0 <= i < j < |s| ==> key(s[i]) <= key(s[j])
  }

  lemma SortedCons<T>(h: T, r: seq<T>, key: T -> int)
    requires SortedByKey(r, key)
    requires forall y :: y in r ==> key(h) <= key(y)
    ensures SortedByKey([h] + r, key)
  {
    var s := [h] + r;
    forall i, j | 0 <= i < j < |s| ensures key(s[i]) <= key(s[j]) {
      assert s[j] == r[j - 1];
      if i == 0 { assert r[j - 1] in r; } else { assert s[i] == r[i - 1]; }
    }
  }

  /** Inserts `x` into the sorted sequence `s`, after every element whose
      key does not exceed its own. */
  function InsertByKey<T>(x: T, s: seq<T>, key: T -> int): (r: seq<T>)
    requires SortedByKey(s, key)
    ensures SortedByKey(r, key)
    ensures multiset(r) == multiset(s) + multiset{x}
  {
    if s == [] then [x]
    else if key(x) < key(s[0]) then
      SortedCons(x, s, key);
      [x] + s
    else
      assert s == [s[0]] + s[1..];
      var tail := InsertByKey(x, s[1..], key);
      forall y | y in tail ensures key(s[0]) <= key(y) {
        assert y in multiset(tail);
        if y != x {
          assert y in s[1..];
          var k :| 0 <= k < |s[1..]| && s[1..][k] == y;
          assert s[k + 1] == y;
        }
      }
      SortedCons(s[0], tail, key);
      [s[0]] + tail
  }

  /** A stable insertion sort of `s` by ascending `key`. */
  function SortByKey<T>(s: seq<T>, key: T -> int): (r: seq<T>)
    ensures SortedByKey(r, key)
    ensures multiset(r) == multiset(s)
  {
    if s == [] then []
    else
      assert s == [s[0]] + s[1..];
      InsertByKey(s[0], SortByKey(s[1..], key), key)
  }
}
