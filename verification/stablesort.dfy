/** A stable sort by a real-valued key, the behaviour of Python's
    `list.sort(key=...)`: ascending by key, and elements with equal keys
    keep their original relative order. A descending sort with
    `reverse=True` is, by the same stability guarantee, the ascending sort
    by the negated key. */
module StableSort {

  /** Ascending by key. */
  ghost predicate SortedBy<T>(s: seq<T>, key: T -> real)
  {
    forall i, j :: 0 <= i < j < |s| ==> key(s[i]) <= key(s[j])
  }

  /** The elements whose key is `v`, in their order in `s`. */
  function WithKey<T>(s: seq<T>, key: T -> real, v: real): (r: seq<T>)
    ensures |r| <= |s|
  {
    if |s| == 0 then []
    else (if key(s[0]) == v then [s[0]] else []) + WithKey(s[1..], key, v)
  }

  /** Insert `x` after every element whose key is at most its own. */
  function Insert<T>(x: T, s: seq<T>, key: T -> real): (r: seq<T>)
    ensures |r| == |s| + 1
  {
    if |s| == 0 then [x]
    else if key(x) < key(s[0]) then [x] + s
    else [s[0]] + Insert(x, s[1..], key)
  }

  lemma {:induction false} InsertPermutes<T>(x: T, s: seq<T>, key: T -> real)
    ensures multiset(Insert(x, s, key)) == multiset(s) + multiset{x}
  {
    if |s| > 0 && key(s[0]) <= key(x) {
      InsertPermutes(x, s[1..], key);
      assert s == [s[0]] + s[1..];
    }
  }

  /** Insertion sort over the elements in input order. */
  function SortBy<T>(s: seq<T>, key: T -> real): (r: seq<T>)
    ensures |r| == |s|
  {
    if |s| == 0 then []
    else
      var n := |s| - 1;
      Insert(s[n], SortBy(s[..n], key), key)
  }

  /** The result is a permutation of the input. */
  lemma {:induction false} SortByPermutes<T>(s: seq<T>, key: T -> real)
    ensures multiset(SortBy(s, key)) == multiset(s)
  {
    if |s| > 0 {
      var n := |s| - 1;
      SortByPermutes(s[..n], key);
      InsertPermutes(s[n], SortBy(s[..n], key), key);
      assert s == s[..n] + [s[n]];
    }
  }

  lemma {:induction false} InsertSorted<T>(x: T, s: seq<T>, key: T -> real)
    requires SortedBy(s, key)
    ensures SortedBy(Insert(x, s, key), key)
  {
    if |s| > 0 && key(s[0]) <= key(x) {
      InsertSorted(x, s[1..], key);
      InsertPermutes(x, s[1..], key);
      var r := Insert(x, s[1..], key);
      assert forall e :: e in multiset(r) ==> e == x || e in multiset(s[1..]);
      forall j | 0 < j < |r| + 1
        ensures key(s[0]) <= key(([s[0]] + r)[j])
      {
        assert r[j - 1] in multiset(r);
      }
    }
  }

  /** The result is in ascending key order. */
  lemma {:induction false} SortBySorted<T>(s: seq<T>, key: T -> real)
    ensures SortedBy(SortBy(s, key), key)
  {
    if |s| > 0 {
      var n := |s| - 1;
      SortBySorted(s[..n], key);
      InsertSorted(s[n], SortBy(s[..n], key), key);
    }
  }

  lemma {:induction false} WithKeyConcat<T>(a: seq<T>, b: seq<T>, key: T -> real, v: real)
    ensures WithKey(a + b, key, v) == WithKey(a, key, v) + WithKey(b, key, v)
  {
    if |a| == 0 {
      assert a + b == b;
    } else {
      assert a + b == [a[0]] + (a[1..] + b);
      assert a == [a[0]] + a[1..];
      WithKeyConcat(a[1..], b, key, v);
      WithKeyCons(a[0], a[1..] + b, key, v);
      WithKeyCons(a[0], a[1..], key, v);
    }
  }

  lemma {:induction false} WithKeyNone<T>(s: seq<T>, key: T -> real, v: real)
    requires forall i :: 0 <= i < |s| ==> key(s[i]) != v
    ensures WithKey(s, key, v) == []
  {
    if |s| > 0 {
      WithKeyNone(s[1..], key, v);
    }
  }

  /** Inserting into a sorted sequence puts `x` after every element with
      the same key. */
  lemma {:induction false} InsertStable<T>(x: T, s: seq<T>, key: T -> real, v: real)
    requires SortedBy(s, key)
    ensures WithKey(Insert(x, s, key), key, v) ==
      WithKey(s, key, v) + (if key(x) == v then [x] else [])
  {
    if |s| == 0 {
      WithKeyCons(x, [], key, v);
    } else if key(x) < key(s[0]) {
      WithKeyCons(x, s, key, v);
      if key(x) == v {
        WithKeyNone(s, key, v);
      }
    } else {
      InsertStable(x, s[1..], key, v);
      WithKeyCons(s[0], Insert(x, s[1..], key), key, v);
      WithKeyCons(s[0], s[1..], key, v);
      assert [s[0]] + s[1..] == s;
    }
  }

  lemma WithKeyCons<T>(x: T, s: seq<T>, key: T -> real, v: real)
    ensures WithKey([x] + s, key, v) == (if key(x) == v then [x] else []) + WithKey(s, key, v)
  {
    assert ([x] + s)[1..] == s;
  }

  /** Elements with equal keys keep their relative order. */
  lemma {:induction false} SortByStable<T>(s: seq<T>, key: T -> real, v: real)
    ensures WithKey(SortBy(s, key), key, v) == WithKey(s, key, v)
  {
    if |s| > 0 {
      var n := |s| - 1;
      var sorted := SortBy(s[..n], key);
      SortByStable(s[..n], key, v);
      SortBySorted(s[..n], key);
      InsertStable(s[n], sorted, key, v);
      assert SortBy(s, key) == Insert(s[n], sorted, key);
      assert s == s[..n] + [s[n]];
      WithKeyConcat(s[..n], [s[n]], key, v);
      assert WithKey([s[n]], key, v) == (if key(s[n]) == v then [s[n]] else []) + WithKey([s[n]][1..], key, v);
    }
  }

  /** No two elements share an identity. */
  ghost predicate DistinctBy<T, U>(s: seq<T>, id: T -> U)
  {
    forall i, j :: 0 <= i < j < |s| ==> id(s[i]) != id(s[j])
  }

  lemma {:induction false} InsertDistinctBy<T, U>(x: T, s: seq<T>, key: T -> real, id: T -> U)
    requires DistinctBy(s, id)
    requires forall i :: 0 <= i < |s| ==> id(s[i]) != id(x)
    ensures DistinctBy(Insert(x, s, key), id)
  {
    if |s| > 0 && key(s[0]) <= key(x) {
      var rest := Insert(x, s[1..], key);
      InsertDistinctBy(x, s[1..], key, id);
      InsertPermutes(x, s[1..], key);
      forall j | 0 <= j < |rest|
        ensures id(s[0]) != id(rest[j])
      {
        assert rest[j] in multiset(rest);
        if rest[j] != x {
          assert rest[j] in multiset(s[1..]);
          var m :| 0 <= m < |s[1..]| && s[1..][m] == rest[j];
          assert s[m + 1] == rest[j];
        }
      }
      var r := [s[0]] + rest;
      assert Insert(x, s, key) == r;
      forall i, j | 0 <= i < j < |r|
        ensures id(r[i]) != id(r[j])
      {
        if i > 0 {
          assert r[i] == rest[i - 1] && r[j] == rest[j - 1];
        } else {
          assert r[j] == rest[j - 1];
        }
      }
    }
  }

  /** Sorting keeps distinct identities distinct. */
  lemma {:induction false} SortByDistinctBy<T, U>(s: seq<T>, key: T -> real, id: T -> U)
    requires DistinctBy(s, id)
    ensures DistinctBy(SortBy(s, key), id)
  {
    if |s| > 0 {
      var n := |s| - 1;
      var sorted := SortBy(s[..n], key);
      SortByDistinctBy(s[..n], key, id);
      SortByPermutes(s[..n], key);
      forall i | 0 <= i < |sorted|
        ensures id(sorted[i]) != id(s[n])
      {
        assert sorted[i] in multiset(s[..n]);
        var m :| 0 <= m < n && s[..n][m] == sorted[i];
        assert s[m] == sorted[i];
      }
      InsertDistinctBy(s[n], sorted, key, id);
    }
  }
}
