/** Python's `sorted(xs, key=..., reverse=True)` and `xs.sort(key=...,
    reverse=True)` for the keys this system sorts by: a number or a tuple
    of numbers, compared lexicographically as Python compares tuples. The
    sort is stable even with `reverse=True`: elements with equal keys keep
    their input order. */
module StableSort {

  /** Python's `a < b` on tuples of numbers. */
  predicate LexLess(a: seq<int>, b: seq<int>)
  {
    if a == [] then b != []
    else if b == [] then false
    else a[0] < b[0] || (a[0] == b[0] && LexLess(a[1..], b[1..]))
  }

  /** Python's `a >= b` on tuples of numbers. */
  predicate LexGe(a: seq<int>, b: seq<int>)
  {
    !LexLess(a, b)
  }

  lemma {:induction false} LexLessIrreflexive(a: seq<int>)
    ensures !LexLess(a, a)
  {
    if a != [] {
      LexLessIrreflexive(a[1..]);
    }
  }

  lemma {:induction false} LexTrichotomy(a: seq<int>, b: seq<int>)
    ensures LexLess(a, b) || LexLess(b, a) || a == b
  {
    if a != [] && b != [] && a[0] == b[0] {
      LexTrichotomy(a[1..], b[1..]);
      if a[1..] == b[1..] {
        assert a == [a[0]] + a[1..] && b == [b[0]] + b[1..];
      }
    }
  }

  lemma {:induction false} LexLessTransitive(a: seq<int>, b: seq<int>, c: seq<int>)
    requires LexLess(a, b) && LexLess(b, c)
    ensures LexLess(a, c)
  {
    if a != [] && b != [] && c != [] && a[0] == b[0] && b[0] == c[0] {
      LexLessTransitive(a[1..], b[1..], c[1..]);
    }
  }

  lemma LexGeTransitive(a: seq<int>, b: seq<int>, c: seq<int>)
    requires LexGe(a, b) && LexGe(b, c)
    ensures LexGe(a, c)
  {
    if LexLess(a, c) {
      LexTrichotomy(a, b);
      if a != b {
        LexLessTransitive(b, a, c);
      }
    }
  }

  /** Non-increasing by key, every pair of positions compared. */
  ghost predicate SortedDesc<T>(s: seq<T>, key: T -> seq<int>)
  {
    forall i, j :: 0 <= i < j < |s| ==> LexGe(key(s[i]), key(s[j]))
  }

  /** The elements whose key is `k`, in their order in `s`. */
  function WithKey<T>(s: seq<T>, key: T -> seq<int>, k: seq<int>): (r: seq<T>)
    ensures |r| <= |s|
  {
    if s == [] then []
    else (if key(s[0]) == k then [s[0]] else []) + WithKey(s[1..], key, k)
  }

  lemma {:induction false} WithKeyAppend<T>(a: seq<T>, b: seq<T>, key: T -> seq<int>, k: seq<int>)
    ensures WithKey(a + b, key, k) == WithKey(a, key, k) + WithKey(b, key, k)
  {
    if a == [] {
      assert a + b == b;
    } else {
      assert a + b == [a[0]] + (a[1..] + b);
      assert a == [a[0]] + a[1..];
      WithKeyAppend(a[1..], b, key, k);
      WithKeyCons(a[0], a[1..] + b, key, k);
      WithKeyCons(a[0], a[1..], key, k);
    }
  }

  /** Put `x` in front of the first element whose key it is at least: the
      elements it passes all have larger keys, so `x` stays ahead of every
      element with its own key. */
  function Insert<T>(x: T, s: seq<T>, key: T -> seq<int>): (r: seq<T>)
    ensures |r| == |s| + 1
    ensures multiset(r) == multiset(s) + multiset{x}
    ensures SortedDesc(s, key) ==> SortedDesc(r, key)
  {
    if s == [] || LexGe(key(x), key(s[0])) then
      var r := [x] + s;
      assert SortedDesc(s, key) ==> SortedDesc(r, key) by {
        if SortedDesc(s, key) && s != [] {
          forall j | 1 <= j < |r| ensures LexGe(key(x), key(r[j])) {
            if j > 1 { LexGeTransitive(key(x), key(s[0]), key(s[j - 1])); }
          }
        }
      }
      r
    else
      var tail := Insert(x, s[1..], key);
      var r := [s[0]] + tail;
      assert s == [s[0]] + s[1..];
      assert SortedDesc(s, key) ==> SortedDesc(r, key) by {
        if SortedDesc(s, key) {
          if LexLess(key(s[0]), key(x)) {
            LexLessTransitive(key(x), key(s[0]), key(x));
            LexLessIrreflexive(key(x));
          }
          forall j | 1 <= j < |r| ensures LexGe(key(s[0]), key(r[j])) {
            var e := r[j];
            assert e in multiset(tail);
            assert e == x || e in multiset(s[1..]);
            if e != x {
              var m :| 0 <= m < |s[1..]| && s[1..][m] == e;
              assert s[m + 1] == e;
            }
          }
        }
      }
      r
  }

  /** Inserting `x` adds it ahead of the elements that share its key and
      changes nothing for other keys. */
  lemma {:induction false} InsertWithKey<T>(x: T, s: seq<T>, key: T -> seq<int>, k: seq<int>)
    ensures WithKey(Insert(x, s, key), key, k)
         == (if key(x) == k then [x] else []) + WithKey(s, key, k)
  {
    InsertUnfold(x, s, key);
    if s == [] || LexGe(key(x), key(s[0])) {
      WithKeyCons(x, s, key, k);
    } else {
      LexLessIrreflexive(key(x));
      assert key(x) != key(s[0]);
      InsertWithKey(x, s[1..], key, k);
      PassedWithKey(x, s, Insert(x, s[1..], key), key, k);
    }
  }

  /** Placing `s[0]` ahead of a tail that already holds `x` in its place. */
  lemma PassedWithKey<T>(x: T, s: seq<T>, tail: seq<T>, key: T -> seq<int>, k: seq<int>)
    requires s != [] && key(x) != key(s[0])
    requires WithKey(tail, key, k) == (if key(x) == k then [x] else []) + WithKey(s[1..], key, k)
    ensures WithKey([s[0]] + tail, key, k) == (if key(x) == k then [x] else []) + WithKey(s, key, k)
  {
    WithKeyCons(s[0], tail, key, k);
    WithKeyCons(s[0], s[1..], key, k);
    assert [s[0]] + s[1..] == s;
  }

  lemma InsertUnfold<T>(x: T, s: seq<T>, key: T -> seq<int>)
    ensures Insert(x, s, key)
         == if s == [] || LexGe(key(x), key(s[0])) then [x] + s else [s[0]] + Insert(x, s[1..], key)
  {
  }

  lemma WithKeyCons<T>(y: T, t: seq<T>, key: T -> seq<int>, k: seq<int>)
    ensures WithKey([y] + t, key, k) == (if key(y) == k then [y] else []) + WithKey(t, key, k)
  {
    assert ([y] + t)[1..] == t;
  }

  /** `sorted(xs, key=key, reverse=True)`: the same elements, non-increasing
      by key. */
  function SortDesc<T>(xs: seq<T>, key: T -> seq<int>): (r: seq<T>)
    ensures |r| == |xs|
    ensures multiset(r) == multiset(xs)
    ensures SortedDesc(r, key)
  {
    if xs == [] then []
    else
      assert xs == [xs[0]] + xs[1..];
      Insert(xs[0], SortDesc(xs[1..], key), key)
  }

  /** Stability: for every key, the elements carrying it come out in the
      order they went in. */
  lemma {:induction false} SortDescStable<T>(xs: seq<T>, key: T -> seq<int>, k: seq<int>)
    ensures WithKey(SortDesc(xs, key), key, k) == WithKey(xs, key, k)
  {
    if xs != [] {
      SortDescStable(xs[1..], key, k);
      InsertWithKey(xs[0], SortDesc(xs[1..], key), key, k);
    }
  }
}
