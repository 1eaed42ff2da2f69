/**
  Python's stable sort in descending key order (`list.sort(key=..., reverse=True)` and
  `sorted(..., reverse=True)`), as a stable insertion sort: elements with equal keys
  keep their input order.
*/
module StableSort {

  /** Keys never increase from left to right. */
  predicate SortedDesc<T>(s: seq<T>, key: T -> real) {
    forall i, j :: 0 <= i < j < |s| ==> key(s[i]) >= key(s[j])
  }

  /** The elements of `s` whose key is `k`, in their order in `s`. */
  function WithKey<T>(s: seq<T>, key: T -> real, k: real): (r: seq<T>)
    ensures |r| <= |s|
    ensures forall i :: 0 <= i < |r| ==> key(r[i]) == k
  {
    if s == [] then []
    else if key(s[0]) == k then [s[0]] + WithKey(s[1..], key, k)
    else WithKey(s[1..], key, k)
  }

  /** Puts x in front of the first element whose key is not above key(x). */
  function Insert<T>(x: T, s: seq<T>, key: T -> real): (r: seq<T>)
    ensures |r| == |s| + 1
  {
    if s == [] || key(s[0]) <= key(x) then [x] + s
    else [s[0]] + Insert(x, s[1..], key)
  }

  /** The stable descending sort of `s` by `key`. */
  function SortDesc<T>(s: seq<T>, key: T -> real): (r: seq<T>)
    ensures |r| == |s|
  {
    if s == [] then [] else Insert(s[0], SortDesc(s[1..], key), key)
  }

  lemma {:induction false} InsertPerm<T>(x: T, s: seq<T>, key: T -> real)
    ensures multiset(Insert(x, s, key)) == multiset([x]) + multiset(s)
  {
    if s != [] && key(s[0]) > key(x) {
      InsertPerm(x, s[1..], key);
      assert s == [s[0]] + s[1..];
    }
  }

  lemma {:induction false} InsertMembers<T>(x: T, s: seq<T>, key: T -> real)
    ensures forall y :: y in Insert(x, s, key) <==> y == x || y in s
  {
    if s != [] && key(s[0]) > key(x) {
      InsertMembers(x, s[1..], key);
      assert s == [s[0]] + s[1..];
    }
  }

  /** An element whose key bounds every key of a sorted sequence can head it. */
  lemma ConsSorted<T>(a: T, t: seq<T>, key: T -> real)
    requires SortedDesc(t, key)
    requires forall i :: 0 <= i < |t| ==> key(a) >= key(t[i])
    ensures SortedDesc([a] + t, key)
  {
    forall i, j | 0 <= i < j < |t| + 1
      ensures key(([a] + t)[i]) >= key(([a] + t)[j])
    {
      assert ([a] + t)[j] == t[j - 1];
      if i > 0 {
        assert ([a] + t)[i] == t[i - 1];
      }
    }
  }

  /** Inserting below a bound keeps every key below that bound. */
  lemma {:induction false} InsertBounded<T>(x: T, s: seq<T>, key: T -> real, b: real)
    requires key(x) <= b
    requires forall i :: 0 <= i < |s| ==> key(s[i]) <= b
    ensures forall i :: 0 <= i < |Insert(x, s, key)| ==> key(Insert(x, s, key)[i]) <= b
  {
    if s != [] && key(s[0]) > key(x) {
      InsertBounded(x, s[1..], key, b);
      var t := Insert(x, s[1..], key);
      assert forall i :: 1 <= i < |t| + 1 ==> ([s[0]] + t)[i] == t[i - 1];
    } else {
      assert forall i :: 1 <= i < |s| + 1 ==> ([x] + s)[i] == s[i - 1];
    }
  }

  lemma {:induction false} InsertSorted<T>(x: T, s: seq<T>, key: T -> real)
    requires SortedDesc(s, key)
    ensures SortedDesc(Insert(x, s, key), key)
  {
    if s == [] || key(s[0]) <= key(x) {
      forall i | 0 <= i < |s|
        ensures key(x) >= key(s[i])
      {
        if i > 0 {
          assert key(s[0]) >= key(s[i]);
        }
      }
      ConsSorted(x, s, key);
    } else {
      var t := Insert(x, s[1..], key);
      assert SortedDesc(s[1..], key) by {
        forall i, j | 0 <= i < j < |s[1..]|
          ensures key(s[1..][i]) >= key(s[1..][j])
        {
          assert s[1..][i] == s[i + 1] && s[1..][j] == s[j + 1];
        }
      }
      InsertSorted(x, s[1..], key);
      InsertBounded(x, s[1..], key, key(s[0]));
      ConsSorted(s[0], t, key);
    }
  }

  lemma {:induction false} InsertWithKey<T>(x: T, s: seq<T>, key: T -> real, k: real)
    ensures WithKey(Insert(x, s, key), key, k)
         == if key(x) == k then [x] + WithKey(s, key, k) else WithKey(s, key, k)
  {
    if s == [] || key(s[0]) <= key(x) {
      assert ([x] + s)[1..] == s;
    } else {
      InsertWithKey(x, s[1..], key, k);
      assert ([s[0]] + Insert(x, s[1..], key))[1..] == Insert(x, s[1..], key);
      if key(x) == k {
        assert key(s[0]) != k;
        assert WithKey(s, key, k) == WithKey(s[1..], key, k);
      }
    }
  }

  /** The result holds the same elements as the input. */
  lemma {:induction false} SortDescPerm<T>(s: seq<T>, key: T -> real)
    ensures multiset(SortDesc(s, key)) == multiset(s)
  {
    if s != [] {
      SortDescPerm(s[1..], key);
      InsertPerm(s[0], SortDesc(s[1..], key), key);
      assert s == [s[0]] + s[1..];
    }
  }

  /** The result is ordered by key, largest first. */
  lemma {:induction false} SortDescSorted<T>(s: seq<T>, key: T -> real)
    ensures SortedDesc(SortDesc(s, key), key)
  {
    if s != [] {
      SortDescSorted(s[1..], key);
      InsertSorted(s[0], SortDesc(s[1..], key), key);
    }
  }

  /** Stability: for every key value, the elements with that key keep their input order. */
  lemma {:induction false} SortDescStable<T>(s: seq<T>, key: T -> real, k: real)
    ensures WithKey(SortDesc(s, key), key, k) == WithKey(s, key, k)
  {
    if s != [] {
      SortDescStable(s[1..], key, k);
      InsertWithKey(s[0], SortDesc(s[1..], key), key, k);
    }
  }

  /** An element of a sequence is an element of its descending sort, and conversely. */
  lemma SortDescMembers<T>(s: seq<T>, key: T -> real)
    ensures forall x :: x in SortDesc(s, key) <==> x in s
  {
    SortDescPerm(s, key);
    forall x
      ensures x in SortDesc(s, key) <==> x in s
    {
      assert x in SortDesc(s, key) <==> x in multiset(SortDesc(s, key));
      assert x in s <==> x in multiset(s);
    }
  }
}
