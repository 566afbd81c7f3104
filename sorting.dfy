/** A stable insertion sort by a real-valued key. It stands for the sorts the
    source delegates to Mongo (`find(...).sort("timestamp")`) and to Python
    (`list.sort(key=..., reverse=True)`; a descending stable sort is the
    ascending stable sort on the negated key). */
module Sorting {

  ghost predicate SortedBy<T>(s: seq<T>, key: T -> real)
  {
    forall i, j :: 0 <= i < j < |s| ==> key(s[i]) <= key(s[j])
  }

  /** Puts `x` after every element whose key is at most `key(x)`. */
  function InsertBy<T>(sorted: seq<T>, x: T, key: T -> real): (r: seq<T>)
    ensures |r| == |sorted| + 1
    ensures multiset(r) == multiset(sorted) + multiset{x}
    ensures forall y :: y in r ==> y in sorted || y == x
    decreases |sorted|
  {
    if sorted == [] then [x]
    else if key(x) < key(sorted[|sorted| - 1]) then
      var init, last := sorted[..|sorted| - 1], sorted[|sorted| - 1];
      assert sorted == init + [last];
      InsertBy(init, x, key) + [last]
    else
      sorted + [x]
  }

  lemma {:induction false} InsertBySorted<T>(sorted: seq<T>, x: T, key: T -> real)
    requires SortedBy(sorted, key)
    ensures SortedBy(InsertBy(sorted, x, key), key)
    decreases |sorted|
  {
    if sorted != [] && key(x) < key(sorted[|sorted| - 1]) {
      var init, last := sorted[..|sorted| - 1], sorted[|sorted| - 1];
      InsertBySorted(init, x, key);
      var front := InsertBy(init, x, key);
      var r := front + [last];
      assert r == InsertBy(sorted, x, key);
      forall i, j | 0 <= i < j < |r| ensures key(r[i]) <= key(r[j]) {
        if j == |r| - 1 {
          assert r[i] in front;
          if r[i] != x {
            var k :| 0 <= k < |init| && init[k] == r[i];
            assert sorted[k] == r[i];
          }
        } else {
          assert r[i] == front[i] && r[j] == front[j];
        }
      }
    } else if sorted != [] {
      var r := sorted + [x];
      forall i, j | 0 <= i < j < |r| ensures key(r[i]) <= key(r[j]) {
        if j == |r| - 1 {
          assert r[i] == sorted[i];
          assert key(sorted[i]) <= key(sorted[|sorted| - 1]) || i == |sorted| - 1;
        } else {
          assert r[i] == sorted[i] && r[j] == sorted[j];
        }
      }
    }
  }

  function SortBy<T>(s: seq<T>, key: T -> real): (r: seq<T>)
    ensures |r| == |s|
    ensures multiset(r) == multiset(s)
    ensures SortedBy(r, key)
    decreases |s|
  {
    if s == [] then []
    else
      var init := s[..|s| - 1];
      assert s == init + [s[|s| - 1]];
      InsertBySorted(SortBy(init, key), s[|s| - 1], key);
      InsertBy(SortBy(init, key), s[|s| - 1], key)
  }

  /** Sorting keeps exactly the elements it was given. */
  lemma SortByMembers<T>(s: seq<T>, key: T -> real, x: T)
    ensures x in SortBy(s, key) <==> x in s
  {
    assert x in SortBy(s, key) <==> x in multiset(SortBy(s, key));
    assert x in s <==> x in multiset(s);
  }

  /** The elements of `s` whose key is `k`, in their order in `s`. */
  function WithKey<T>(s: seq<T>, key: T -> real, k: real): seq<T>
    decreases |s|
  {
    if s == [] then []
    else WithKey(s[..|s| - 1], key, k) + (if key(s[|s| - 1]) == k then [s[|s| - 1]] else [])
  }

  /** Inserting `x` puts it after every element of equal key. */
  lemma {:induction false} InsertByWithKey<T>(sorted: seq<T>, x: T, key: T -> real, k: real)
    ensures WithKey(InsertBy(sorted, x, key), key, k)
            == WithKey(sorted, key, k) + (if key(x) == k then [x] else [])
    decreases |sorted|
  {
    if sorted == [] {
      assert InsertBy(sorted, x, key) == [x];
      assert [x][..0] == [];
    } else if key(x) < key(sorted[|sorted| - 1]) {
      var init, last := sorted[..|sorted| - 1], sorted[|sorted| - 1];
      var front := InsertBy(init, x, key);
      InsertByWithKey(init, x, key, k);
      assert (front + [last])[..|front|] == front;
      assert WithKey(front + [last], key, k)
             == WithKey(front, key, k) + (if key(last) == k then [last] else []);
    } else {
      assert (sorted + [x])[..|sorted|] == sorted;
    }
  }

  /** The sort is stable: for every key, the elements with that key keep
      their input order. */
  lemma {:induction false} SortByStable<T>(s: seq<T>, key: T -> real, k: real)
    ensures WithKey(SortBy(s, key), key, k) == WithKey(s, key, k)
    decreases |s|
  {
    if s != [] {
      var init := s[..|s| - 1];
      SortByStable(init, key, k);
      InsertByWithKey(SortBy(init, key), s[|s| - 1], key, k);
    }
  }
}
