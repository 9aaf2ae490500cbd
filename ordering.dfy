/**
 * The query shapes the controllers ask of the database: `.sort(key)`,
 * `.skip(n)` and `.limit(n)`, over an in-memory sequence of records.
 */
module Ordering {

  /** `s` is in ascending order of `key`. */
  ghost predicate SortedBy<T>(s: seq<T>, key: T -> int) {
    forall i, j :: 0 <= i < j < |s| ==> key(s[i]) <= key(s[j])
  }

  /** `.find(query)`: the elements that satisfy `p`, in their stored order. */
  function Filter<T(!new)>(s: seq<T>, p: T -> bool): (r: seq<T>)
    ensures |r| <= |s|
    ensures forall i :: 0 <= i < |r| ==> r[i] in s && p(r[i])
    ensures forall i :: 0 <= i < |s| && p(s[i]) ==> s[i] in r
    ensures forall x :: multiset(r)[x] == if p(x) then multiset(s)[x] else 0
  {
    if s == [] then []
    else
      var rest := Filter(s[1..], p);
      assert forall i :: 1 <= i < |s| ==> s[i] == s[1..][i - 1];
      assert s == [s[0]] + s[1..];
      assert multiset(s) == multiset{s[0]} + multiset(s[1..]);
      if p(s[0]) then
        assert multiset([s[0]] + rest) == multiset{s[0]} + multiset(rest);
        [s[0]] + rest
      else rest
  }

  /** Places `x` into an already sorted `s`, after every element with an equal key. */
  function Insert<T>(x: T, s: seq<T>, key: T -> int): (r: seq<T>)
    requires SortedBy(s, key)
    ensures SortedBy(r, key)
    ensures multiset(r) == multiset(s) + multiset{x}
    ensures |r| == |s| + 1
    ensures r[0] == x || (s != [] && r[0] == s[0])
  {
    if s == [] then [x]
    else if key(x) < key(s[0]) then
      PrependSmallest(x, s, key);
      [x] + s
    else
      var rest := Insert(x, s[1..], key);
      assert key(s[0]) <= key(rest[0]);
      PrependSmallest(s[0], rest, key);
      assert s == [s[0]] + s[1..];
      [s[0]] + rest
  }

  /** A sorted sequence stays sorted when an element no greater than its first is put in front. */
  lemma PrependSmallest<T>(h: T, s: seq<T>, key: T -> int)
    requires SortedBy(s, key) && (s != [] ==> key(h) <= key(s[0]))
    ensures SortedBy([h] + s, key)
  {
    forall i, j | 0 <= i < j < |s| + 1
      ensures key(([h] + s)[i]) <= key(([h] + s)[j])
    {
      assert ([h] + s)[j] == s[j - 1];
      if i > 0 {
        assert ([h] + s)[i] == s[i - 1];
      }
    }
  }

  /** `.sort(key)`: a stable insertion sort in ascending order of `key`. */
  function SortBy<T>(s: seq<T>, key: T -> int): (r: seq<T>)
    ensures SortedBy(r, key)
    ensures multiset(r) == multiset(s)
    ensures |r| == |s|
  {
    if s == [] then []
    else
      assert s == [s[0]] + s[1..];
      Insert(s[0], SortBy(s[1..], key), key)
  }

  /**
   * `.skip(offset).limit(limit)` as MongoDB applies them (skip first, whatever
   * the order of the calls); a limit of 0 means "no limit" and a negative limit
   * returns at most its absolute value.
   */
  function Page<T>(s: seq<T>, offset: nat, limit: int): (r: seq<T>)
    ensures |r| <= |s|
    ensures offset >= |s| ==> r == []
    ensures offset < |s| ==> r <= s[offset..]
    ensures forall i :: 0 <= i < |r| ==> offset + i < |s| && r[i] == s[offset + i]
    ensures limit == 0 ==> r == (if offset < |s| then s[offset..] else [])
    ensures limit != 0 ==> |r| == Min(if limit < 0 then -limit else limit, if offset < |s| then |s| - offset else 0)
  {
    var rest := if offset < |s| then s[offset..] else [];
    var n := if limit < 0 then -limit else limit;
    if n == 0 || n >= |rest| then rest else rest[..n]
  }

  /** A page of a sorted sequence is sorted, and is the run of it that starts at `offset`. */
  lemma PageOfSorted<T>(s: seq<T>, key: T -> int, offset: nat, limit: int)
    requires SortedBy(s, key)
    ensures var r := Page(s, offset, limit);
      && SortedBy(r, key)
      && forall i :: 0 <= i < |r| ==> offset + i < |s| && r[i] == s[offset + i]
  {
    var r := Page(s, offset, limit);
    if offset < |s| {
      assert forall i :: 0 <= i < |r| ==> r[i] == s[offset + i];
    }
  }

  /**
   * The first `n` of a sorted sequence are drawn from it, and when they leave
   * anything out there are `n` of them and what is left out sorts no earlier
   * than the last one kept.
   */
  lemma PageKeepsSmallest<T>(s: seq<T>, key: T -> int, n: nat)
    requires SortedBy(s, key) && n > 0
    ensures var r := Page(s, 0, n);
      && multiset(r) <= multiset(s)
      && forall x :: x in multiset(s) - multiset(r) ==> |r| == n && key(r[n - 1]) <= key(x)
  {
    var r := Page(s, 0, n);
    if |s| <= n {
      assert r == s;
    } else {
      assert r == s[..n];
      assert s == r + s[n..];
      assert multiset(s) == multiset(r) + multiset(s[n..]);
      forall x | x in multiset(s) - multiset(r)
        ensures key(r[|r| - 1]) <= key(x)
      {
        assert x in multiset(s[n..]);
        var k :| 0 <= k < |s[n..]| && s[n..][k] == x;
        assert s[n - 1] == r[|r| - 1];
        assert s[n + k] == x;
      }
    }
  }

  /**
   * The first `n` of the elements satisfying `p`, sorted by `key`: drawn from
   * `s`, and every element satisfying `p` that they leave out sorts no earlier
   * than the last one kept, of which there are then `n`.
   */
  lemma FirstSelected<T(!new)>(s: seq<T>, p: T -> bool, key: T -> int, n: nat)
    requires n > 0
    ensures var r := Page(SortBy(Filter(s, p), key), 0, n);
      && (forall x :: multiset(r)[x] <= multiset(s)[x])
      && (forall x :: p(x) && multiset(r)[x] < multiset(s)[x] ==> |r| == n && key(r[n - 1]) <= key(x))
  {
    var chosen := Filter(s, p);
    var sorted := SortBy(chosen, key);
    var r := Page(sorted, 0, n);
    PageKeepsSmallest(sorted, key, n);
    forall x
      ensures multiset(r)[x] <= multiset(s)[x]
      ensures p(x) && multiset(r)[x] < multiset(s)[x] ==> |r| == n && key(r[n - 1]) <= key(x)
    {
      assert multiset(r)[x] <= multiset(sorted)[x] == multiset(chosen)[x];
      if p(x) && multiset(r)[x] < multiset(s)[x] {
        assert x in multiset(sorted) - multiset(r);
      }
    }
  }

  /** What holds of every element of a sequence holds of every element of any of its permutations. */
  lemma AllOfPermutation<T>(a: seq<T>, b: seq<T>, p: T -> bool)
    requires multiset(a) == multiset(b)
    requires forall i :: 0 <= i < |b| ==> p(b[i])
    ensures forall i :: 0 <= i < |a| ==> p(a[i])
  {
    forall i | 0 <= i < |a|
      ensures p(a[i])
    {
      assert a[i] in multiset(b);
      var k :| 0 <= k < |b| && b[k] == a[i];
    }
  }

  /** Two sequences with the same elements, counted with multiplicity, have the same members. */
  lemma SameMembers<T>(a: seq<T>, b: seq<T>)
    requires multiset(a) == multiset(b)
    ensures forall i :: 0 <= i < |a| ==> a[i] in b
    ensures forall i :: 0 <= i < |b| ==> b[i] in a
  {
    forall i | 0 <= i < |a| ensures a[i] in b {
      assert a[i] in multiset(a);
    }
    forall i | 0 <= i < |b| ensures b[i] in a {
      assert b[i] in multiset(b);
    }
  }

  function Min(a: int, b: int): int {
    if a <= b then a else b
  }
}
