/** Python's `list.sort(key=...)`: a stable sort. `reverse=True` keeps equal
    elements in their original order too, so it is the ascending sort on the
    negated key. The sort is modelled by insertion: each element in turn is
    placed after every element already placed whose key is at most its own. */
module Sorting {

  /** Non-decreasing in `key`. */
  predicate SortedBy<T>(s: seq<T>, key: T -> real) {
    forall i, j :: 0 <= i < j < |s| ==> key(s[i]) <= key(s[j])
  }

  /** The elements whose key is `v`, in their order. */
  function WithKey<T>(s: seq<T>, key: T -> real, v: real): (r: seq<T>)
    ensures |r| <= |s|
    ensures forall i :: 0 <= i < |r| ==> key(r[i]) == v && r[i] in s
  {
    if s == [] then []
    else WithKey(s[..|s| - 1], key, v) + (if key(s[|s| - 1]) == v then [s[|s| - 1]] else [])
  }

  /** `x` placed after the last element whose key is at most its own, every
      element behind it having a larger key. */
  function Insert<T>(x: T, s: seq<T>, key: T -> real): (r: seq<T>)
    ensures |r| == |s| + 1
  {
    if s == [] || key(s[|s| - 1]) <= key(x) then s + [x]
    else Insert(x, s[..|s| - 1], key) + [s[|s| - 1]]
  }

  /** The stable sort of `s` by `key`. */
  function SortBy<T>(s: seq<T>, key: T -> real): (r: seq<T>)
    ensures |r| == |s|
  {
    if s == [] then [] else Insert(s[|s| - 1], SortBy(s[..|s| - 1], key), key)
  }

  // ---------------------------------------------------------------------------
  // Insertion
  // ---------------------------------------------------------------------------

  lemma {:induction false} WithKeyAppend<T>(a: seq<T>, b: seq<T>, key: T -> real, v: real)
    ensures WithKey(a + b, key, v) == WithKey(a, key, v) + WithKey(b, key, v)
    decreases |b|
  {
    if b == [] {
      assert a + b == a;
    } else {
      assert (a + b)[..|a + b| - 1] == a + b[..|b| - 1];
      WithKeyAppend(a, b[..|b| - 1], key, v);
    }
  }

  lemma {:induction false} InsertPermutes<T>(x: T, s: seq<T>, key: T -> real)
    ensures multiset(Insert(x, s, key)) == multiset(s) + multiset{x}
    decreases |s|
  {
    if s != [] && key(s[|s| - 1]) > key(x) {
      var front := s[..|s| - 1];
      InsertPermutes(x, front, key);
      assert s == front + [s[|s| - 1]];
    }
  }

  lemma {:induction false} InsertSorted<T>(x: T, s: seq<T>, key: T -> real)
    requires SortedBy(s, key)
    ensures SortedBy(Insert(x, s, key), key)
    decreases |s|
  {
    if s != [] && key(s[|s| - 1]) > key(x) {
      var front := s[..|s| - 1];
      var last := s[|s| - 1];
      InsertSorted(x, front, key);
      InsertPermutes(x, front, key);
      var r := Insert(x, front, key);
      forall e | e in r ensures key(e) <= key(last) {
        assert e in multiset(r);
        if e != x {
          assert e in multiset(front);
          var i :| 0 <= i < |front| && front[i] == e;
          assert s[i] == e;
        }
      }
      assert Insert(x, s, key) == r + [last];
      forall i, j | 0 <= i < j < |r| + 1
        ensures key((r + [last])[i]) <= key((r + [last])[j])
      {
        if j == |r| {
          assert r[i] in r;
        }
      }
    }
  }

  /** Insertion moves `x` only past elements with a larger key, so the
      elements of any one key keep their order, `x` last among its own. */
  lemma {:induction false} InsertStable<T>(x: T, s: seq<T>, key: T -> real, v: real)
    ensures WithKey(Insert(x, s, key), key, v) == WithKey(s, key, v) + (if key(x) == v then [x] else [])
    decreases |s|
  {
    if s == [] || key(s[|s| - 1]) <= key(x) {
      WithKeyAppend(s, [x], key, v);
      assert WithKey([x], key, v) == WithKey([], key, v) + (if key(x) == v then [x] else []);
    } else {
      var front := s[..|s| - 1];
      var last := s[|s| - 1];
      InsertStable(x, front, key, v);
      WithKeyAppend(Insert(x, front, key), [last], key, v);
      assert WithKey([last], key, v) == WithKey([], key, v) + (if key(last) == v then [last] else []);
    }
  }

  // ---------------------------------------------------------------------------
  // The sort
  // ---------------------------------------------------------------------------

  /** The sort rearranges the elements, neither losing nor adding any. */
  lemma {:induction false} SortPermutes<T>(s: seq<T>, key: T -> real)
    ensures multiset(SortBy(s, key)) == multiset(s)
    decreases |s|
  {
    if s != [] {
      var front := s[..|s| - 1];
      SortPermutes(front, key);
      InsertPermutes(s[|s| - 1], SortBy(front, key), key);
      assert s == front + [s[|s| - 1]];
    }
  }

  /** The result is in non-decreasing key order. */
  lemma {:induction false} SortSorted<T>(s: seq<T>, key: T -> real)
    ensures SortedBy(SortBy(s, key), key)
    decreases |s|
  {
    if s != [] {
      SortSorted(s[..|s| - 1], key);
      InsertSorted(s[|s| - 1], SortBy(s[..|s| - 1], key), key);
    }
  }

  /** The sort is stable: the elements of each key appear in their original
      order. */
  lemma {:induction false} SortStable<T>(s: seq<T>, key: T -> real, v: real)
    ensures WithKey(SortBy(s, key), key, v) == WithKey(s, key, v)
    decreases |s|
  {
    if s != [] {
      SortStable(s[..|s| - 1], key, v);
      InsertStable(s[|s| - 1], SortBy(s[..|s| - 1], key), key, v);
    }
  }

  /** The last element of a sorted sequence has the largest key, so any key
      that occurs is at most it. */
  lemma LastKeyBound<T>(a: seq<T>, b: seq<T>, key: T -> real)
    requires SortedBy(b, key) && a != []
    requires WithKey(a, key, key(a[|a| - 1])) == WithKey(b, key, key(a[|a| - 1]))
    ensures b != [] && key(a[|a| - 1]) <= key(b[|b| - 1])
  {
    var k := key(a[|a| - 1]);
    assert WithKey(a, key, k) == WithKey(a[..|a| - 1], key, k) + [a[|a| - 1]];
    var w := WithKey(b, key, k);
    assert w[0] in b && key(w[0]) == k;
    var i :| 0 <= i < |b| && b[i] == w[0];
    assert i == |b| - 1 || key(b[i]) <= key(b[|b| - 1]);
  }

  /** Two sequences with the same elements of every key, ending in elements
      of the same key, end in the same element, and their fronts have the same
      elements of every key. */
  lemma DropLast<T>(fa: seq<T>, la: T, fb: seq<T>, lb: T, key: T -> real)
    requires key(la) == key(lb)
    requires forall v :: WithKey(fa + [la], key, v) == WithKey(fb + [lb], key, v)
    ensures la == lb
    ensures forall v :: WithKey(fa, key, v) == WithKey(fb, key, v)
  {
    var a, b := fa + [la], fb + [lb];
    assert a[..|a| - 1] == fa && b[..|b| - 1] == fb;
    var w := WithKey(a, key, key(la));
    assert w == WithKey(fa, key, key(la)) + [la];
    assert w == WithKey(b, key, key(la)) == WithKey(fb, key, key(la)) + [lb];
    assert la == w[|w| - 1] == lb;
    forall v ensures WithKey(fa, key, v) == WithKey(fb, key, v) {
      if v != key(la) {
        assert WithKey(a, key, v) == WithKey(fa, key, v);
        assert WithKey(b, key, v) == WithKey(fb, key, v);
      } else {
        assert WithKey(fa, key, v) == w[..|w| - 1];
        assert WithKey(fb, key, v) == w[..|w| - 1];
      }
    }
  }

  /** Sorted sequences that hold the same elements of every key, in the same
      order, are equal. */
  lemma {:induction false} SortedStableUnique<T>(a: seq<T>, b: seq<T>, key: T -> real)
    requires SortedBy(a, key) && SortedBy(b, key)
    requires forall v :: WithKey(a, key, v) == WithKey(b, key, v)
    ensures a == b
    decreases |a| + |b|
  {
    if a == [] {
      if b != [] {
        LastKeyBound(b, a, key);
        assert false;
      }
    } else {
      assert b != [] by {
        LastKeyBound(a, b, key);
      }
      var la, lb := a[|a| - 1], b[|b| - 1];
      assert key(la) == key(lb) by {
        LastKeyBound(a, b, key);
        LastKeyBound(b, a, key);
      }
      var fa, fb := a[..|a| - 1], b[..|b| - 1];
      FrontAndLast(a);
      FrontAndLast(b);
      DropLast(fa, la, fb, lb, key);
      assert SortedBy(fa, key) && SortedBy(fb, key) by {
        SortedFront(fa, la, key);
        SortedFront(fb, lb, key);
      }
      SortedStableUnique(fa, fb, key);
    }
  }

  lemma FrontAndLast<T>(s: seq<T>)
    requires s != []
    ensures s == s[..|s| - 1] + [s[|s| - 1]]
  {
  }

  lemma SortedFront<T>(f: seq<T>, x: T, key: T -> real)
    requires SortedBy(f + [x], key)
    ensures SortedBy(f, key)
  {
    forall i, j | 0 <= i < j < |f| ensures key(f[i]) <= key(f[j]) {
      assert (f + [x])[i] == f[i] && (f + [x])[j] == f[j];
    }
  }

  /** Whatever stable sort produced it, a sorted arrangement that keeps the
      elements of each key in their original order is this one. */
  lemma SortIsTheStableSort<T>(s: seq<T>, t: seq<T>, key: T -> real)
    requires SortedBy(t, key)
    requires forall v :: WithKey(t, key, v) == WithKey(s, key, v)
    ensures t == SortBy(s, key)
  {
    SortSorted(s, key);
    forall v ensures WithKey(t, key, v) == WithKey(SortBy(s, key), key, v) {
      SortStable(s, key, v);
    }
    SortedStableUnique(t, SortBy(s, key), key);
  }
}
