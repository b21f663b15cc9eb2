/** The stable sort by an integer key that `list.sort` performs, and what determines it. */
module Sorting {

  predicate Sorted<T>(key: T -> int, s: seq<T>) {
    forall i, j :: 0 <= i < j < |s| ==> key(s[i]) <= key(s[j])
  }

  /** `x` goes after everything that is not greater. */
  function Insert<T>(key: T -> int, s: seq<T>, x: T): (r: seq<T>)
    ensures |r| == |s| + 1
  {
    if s == [] || key(s[|s| - 1]) <= key(x) then s + [x]
    else Insert(key, s[..|s| - 1], x) + [s[|s| - 1]]
  }

  function Sort<T>(key: T -> int, s: seq<T>): (r: seq<T>)
    ensures |r| == |s|
  {
    if s == [] then [] else Insert(key, Sort(key, s[..|s| - 1]), s[|s| - 1])
  }

  /** The elements with one key, in the order they have in `s`. */
  function WithKey<T>(key: T -> int, s: seq<T>, k: int): seq<T> {
    if s == [] then [] else
      WithKey(key, s[..|s| - 1], k) + if key(s[|s| - 1]) == k then [s[|s| - 1]] else []
  }

  /** The same elements, those of equal key in the same order. */
  ghost predicate SameOrder<T>(key: T -> int, a: seq<T>, b: seq<T>) {
    forall k :: WithKey(key, a, k) == WithKey(key, b, k)
  }

  lemma {:induction false} InsertSorted<T>(key: T -> int, s: seq<T>, x: T)
    requires Sorted(key, s)
    ensures Sorted(key, Insert(key, s, x))
    ensures forall i :: 0 <= i <= |s| ==> Insert(key, s, x)[i] in s || Insert(key, s, x)[i] == x
  {
    if s != [] && key(s[|s| - 1]) > key(x) {
      var m, z := s[..|s| - 1], s[|s| - 1];
      InsertSorted(key, m, x);
      var r := Insert(key, m, x);
      forall i | 0 <= i < |r| ensures key(r[i]) <= key(z) && (r[i] in s || r[i] == x) {
        if r[i] in m { var j :| 0 <= j < |m| && m[j] == r[i]; }
      }
    }
  }

  lemma WithKeySnoc<T>(key: T -> int, s: seq<T>, x: T, k: int)
    ensures WithKey(key, s + [x], k) == WithKey(key, s, k) + if key(x) == k then [x] else []
  {
    assert (s + [x])[..|s|] == s;
  }

  lemma {:induction false} InsertKeeps<T>(key: T -> int, s: seq<T>, x: T, k: int)
    ensures WithKey(key, Insert(key, s, x), k) == WithKey(key, s + [x], k)
  {
    WithKeySnoc(key, s, x, k);
    if s != [] && key(s[|s| - 1]) > key(x) {
      var m, z := s[..|s| - 1], s[|s| - 1];
      InsertKeeps(key, m, x, k);
      WithKeySnoc(key, m, x, k);
      WithKeySnoc(key, Insert(key, m, x), z, k);
    }
  }

  lemma {:induction false} SortMeets<T>(key: T -> int, s: seq<T>)
    ensures Sorted(key, Sort(key, s)) && SameOrder(key, Sort(key, s), s)
  {
    if s != [] {
      var m, x := s[..|s| - 1], s[|s| - 1];
      SortMeets(key, m);
      InsertSorted(key, Sort(key, m), x);
      forall k ensures WithKey(key, Sort(key, s), k) == WithKey(key, s, k) {
        InsertKeeps(key, Sort(key, m), x, k);
        WithKeySnoc(key, Sort(key, m), x, k);
      }
    }
  }

  lemma {:induction false} WithKeyMember<T>(key: T -> int, s: seq<T>, x: T, k: int)
    ensures x in WithKey(key, s, k) <==> x in s && key(x) == k
  {
    if s != [] {
      WithKeyMember(key, s[..|s| - 1], x, k);
      assert s == s[..|s| - 1] + [s[|s| - 1]];
    }
  }

  lemma LastAtLeast<T>(key: T -> int, a: seq<T>, b: seq<T>)
    requires Sorted(key, a) && SameOrder(key, a, b) && b != []
    ensures a != [] && key(b[|b| - 1]) <= key(a[|a| - 1])
  {
    var x := b[|b| - 1];
    WithKeyMember(key, b, x, key(x));
    WithKeyMember(key, a, x, key(x));
    assert WithKey(key, a, key(x)) == WithKey(key, b, key(x));
    var i :| 0 <= i < |a| && a[i] == x;
  }

  /** Being sorted with the elements of equal key in order determines a sequence. */
  lemma {:induction false} SortedUnique<T>(key: T -> int, a: seq<T>, b: seq<T>)
    requires Sorted(key, a) && Sorted(key, b) && SameOrder(key, a, b)
    ensures a == b
    decreases |a|
  {
    if b != [] { LastAtLeast(key, a, b); }
    if a != [] {
      LastAtLeast(key, b, a);
      var x, y := a[|a| - 1], b[|b| - 1];
      assert WithKey(key, a, key(x)) == WithKey(key, b, key(x));
      assert x == WithKey(key, a, key(x))[|WithKey(key, a, key(x))| - 1];
      var m, n := a[..|a| - 1], b[..|b| - 1];
      forall k ensures WithKey(key, m, k) == WithKey(key, n, k) {
        assert WithKey(key, a, k) == WithKey(key, b, k);
        DropLast(WithKey(key, m, k), WithKey(key, n, k), x, k == key(x));
      }
      SortedUnique(key, m, n);
      assert a == m + [x] && b == n + [y];
    }
  }

  lemma DropLast<T>(u: seq<T>, v: seq<T>, x: T, has: bool)
    requires u + (if has then [x] else []) == v + (if has then [x] else [])
    ensures u == v
  {
    var end := if has then [x] else [];
    assert u == (u + end)[..|u|] && v == (v + end)[..|v|];
  }

  lemma SortFixed<T>(key: T -> int, s: seq<T>)
    requires Sorted(key, s)
    ensures Sort(key, s) == s
  {
    SortMeets(key, s);
    SortedUnique(key, Sort(key, s), s);
  }

  lemma SortMembers<T>(key: T -> int, s: seq<T>, x: T)
    ensures x in Sort(key, s) <==> x in s
  {
    SortMeets(key, s);
    WithKeyMember(key, s, x, key(x));
    WithKeyMember(key, Sort(key, s), x, key(x));
    assert WithKey(key, Sort(key, s), key(x)) == WithKey(key, s, key(x));
  }

  // -------------------------------------------------------------- filtering

  function Filter<T>(p: T -> bool, s: seq<T>): seq<T> {
    if s == [] then [] else Filter(p, s[..|s| - 1]) + if p(s[|s| - 1]) then [s[|s| - 1]] else []
  }

  lemma {:induction false} FilterMember<T>(p: T -> bool, s: seq<T>, x: T)
    ensures x in Filter(p, s) <==> x in s && p(x)
  {
    if s != [] {
      FilterMember(p, s[..|s| - 1], x);
      assert s == s[..|s| - 1] + [s[|s| - 1]];
    }
  }

  lemma {:induction false} FilterSorted<T>(key: T -> int, p: T -> bool, s: seq<T>)
    requires Sorted(key, s)
    ensures Sorted(key, Filter(p, s))
  {
    if s != [] {
      var m := s[..|s| - 1];
      FilterSorted(key, p, m);
      var f := Filter(p, m);
      forall i | 0 <= i < |f| ensures key(f[i]) <= key(s[|s| - 1]) {
        FilterMember(p, m, f[i]);
        var j :| 0 <= j < |m| && m[j] == f[i];
      }
    }
  }

  lemma FilterSnoc<T>(p: T -> bool, s: seq<T>, x: T)
    ensures Filter(p, s + [x]) == Filter(p, s) + if p(x) then [x] else []
  {
    assert (s + [x])[..|s|] == s;
  }

  lemma {:induction false} FilterWithKey<T>(key: T -> int, p: T -> bool, s: seq<T>, k: int)
    ensures WithKey(key, Filter(p, s), k) == Filter(p, WithKey(key, s, k))
  {
    if s != [] {
      var m, x := s[..|s| - 1], s[|s| - 1];
      FilterWithKey(key, p, m, k);
      WithKeySnoc(key, Filter(p, m), x, k);
      FilterSnoc(p, WithKey(key, m, k), x);
      assert Filter(p, m) + [] == Filter(p, m) && WithKey(key, m, k) + [] == WithKey(key, m, k);
    }
  }

  /** Filtering a sorted list is sorting the filtered one. */
  lemma FilterSort<T>(key: T -> int, p: T -> bool, s: seq<T>)
    ensures Filter(p, Sort(key, s)) == Sort(key, Filter(p, s))
  {
    SortMeets(key, s);
    SortMeets(key, Filter(p, s));
    FilterSorted(key, p, Sort(key, s));
    forall k ensures WithKey(key, Filter(p, Sort(key, s)), k) == WithKey(key, Sort(key, Filter(p, s)), k) {
      FilterWithKey(key, p, s, k);
      FilterWithKey(key, p, Sort(key, s), k);
      assert WithKey(key, Sort(key, s), k) == WithKey(key, s, k);
      assert WithKey(key, Sort(key, Filter(p, s)), k) == WithKey(key, Filter(p, s), k);
    }
    SortedUnique(key, Filter(p, Sort(key, s)), Sort(key, Filter(p, s)));
  }
}
