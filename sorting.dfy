/**
 * The table operations the reconcilers borrow from pandas: a stable sort by
 * a comparison (`sort_values` on several keys), keep-first de-duplication by
 * a key (`drop_duplicates(keep='first')`), the first-appearance order of keys
 * (`groupby(sort=False)`), filtering and `LIMIT`.
 */
module Sorting {

  /** `le` is total and transitive: a sort order that may have ties. */
  ghost predicate TotalPreorder<T(!new)>(le: (T, T) -> bool) {
    && (forall a, b :: le(a, b) || le(b, a))
    && (forall a, b, c :: le(a, b) && le(b, c) ==> le(a, c))
  }

  /** Every element is ordered before every later one. */
  ghost predicate Sorted<T>(s: seq<T>, le: (T, T) -> bool) {
    forall i, j :: 0 <= i < j < |s| ==> le(s[i], s[j])
  }

  /**
   * Inserts `x` in front of the first element it may precede. Since the
   * sort below inserts earlier elements into the sorted rest, an element
   * lands in front of every equivalent later one: the sort is stable.
   */
  function Insert<T>(x: T, s: seq<T>, le: (T, T) -> bool): (r: seq<T>)
    ensures multiset(r) == multiset(s) + multiset{x}
    ensures |r| == |s| + 1
  {
    if s == [] then [x]
    else if le(x, s[0]) then [x] + s
    else
      assert s == [s[0]] + s[1..];
      [s[0]] + Insert(x, s[1..], le)
  }

  /** Stable insertion sort. */
  function Sort<T>(s: seq<T>, le: (T, T) -> bool): (r: seq<T>)
    ensures multiset(r) == multiset(s)
    ensures |r| == |s|
  {
    if s == [] then []
    else
      assert s == [s[0]] + s[1..];
      Insert(s[0], Sort(s[1..], le), le)
  }

  lemma {:induction false} InsertSorted<T(!new)>(x: T, s: seq<T>, le: (T, T) -> bool)
    requires TotalPreorder(le) && Sorted(s, le)
    ensures Sorted(Insert(x, s, le), le)
  {
    if s != [] && !le(x, s[0]) {
      InsertSorted(x, s[1..], le);
      var r := Insert(x, s, le);
      var t := Insert(x, s[1..], le);
      assert r == [s[0]] + t;
      forall j | 0 < j < |r| ensures le(r[0], r[j]) {
        assert r[j] == t[j - 1];
        assert r[j] in multiset(t);
        assert r[j] in multiset(s[1..]) + multiset{x};
        if r[j] != x {
          assert r[j] in multiset(s[1..]);
          var k :| 0 <= k < |s[1..]| && s[1..][k] == r[j];
          assert le(s[0], s[k + 1]);
        }
      }
    }
  }

  /** Sorting puts the elements in order and keeps them all, with their multiplicities. */
  lemma {:induction false} SortSorted<T(!new)>(s: seq<T>, le: (T, T) -> bool)
    requires TotalPreorder(le)
    ensures Sorted(Sort(s, le), le)
    ensures multiset(Sort(s, le)) == multiset(s)
  {
    if s != [] {
      SortSorted(s[1..], le);
      InsertSorted(s[0], Sort(s[1..], le), le);
    }
  }

  /** For a transitive order, comparing neighbours is enough. */
  lemma {:induction false} AdjacentSorted<T(!new)>(s: seq<T>, le: (T, T) -> bool)
    requires TotalPreorder(le)
    requires forall i :: 0 <= i < |s| - 1 ==> le(s[i], s[i + 1])
    ensures Sorted(s, le)
  {
    if |s| > 1 {
      AdjacentSorted(s[1..], le);
      forall j | 1 < j < |s| ensures le(s[0], s[j]) {
        assert le(s[1], s[j]) by { assert s[1..][0] == s[1] && s[1..][j - 1] == s[j]; }
      }
    }
  }

  /**
   * Two sorted arrangements of the same elements coincide when `le` ties
   * no two distinct elements among them.
   */
  lemma {:induction false} SortedUnique<T>(a: seq<T>, b: seq<T>, le: (T, T) -> bool)
    requires Sorted(a, le) && Sorted(b, le) && multiset(a) == multiset(b)
    requires forall x, y :: x in a && y in a && le(x, y) && le(y, x) ==> x == y
    ensures a == b
  {
    assert |a| == |multiset(a)| == |multiset(b)| == |b|;
    if a != [] {
      SortedHeads(a, b, le);
      TailMultiset(a, b);
      assert forall x :: x in a[1..] ==> x in a;
      SortedUnique(a[1..], b[1..], le);
      assert a == [a[0]] + a[1..] && b == [b[0]] + b[1..];
    }
  }

  lemma SortedHeads<T>(a: seq<T>, b: seq<T>, le: (T, T) -> bool)
    requires a != [] && b != []
    requires Sorted(a, le) && Sorted(b, le) && multiset(a) == multiset(b)
    requires forall x, y :: x in a && y in a && le(x, y) && le(y, x) ==> x == y
    ensures a[0] == b[0]
  {
    assert a[0] in multiset(b);
    assert b[0] in multiset(a);
    var i :| 0 <= i < |b| && b[i] == a[0];
    var j :| 0 <= j < |a| && a[j] == b[0];
    if i != 0 && j != 0 {
      assert le(b[0], b[i]);
      assert le(a[0], a[j]);
      assert b[0] in a;
    }
  }

  lemma TailMultiset<T>(a: seq<T>, b: seq<T>)
    requires a != [] && b != [] && a[0] == b[0] && multiset(a) == multiset(b)
    ensures multiset(a[1..]) == multiset(b[1..])
  {
    assert a == [a[0]] + a[1..] && b == [b[0]] + b[1..];
    assert multiset(a) == multiset{a[0]} + multiset(a[1..]);
    assert multiset(b) == multiset{a[0]} + multiset(b[1..]);
    assert multiset(a[1..]) == multiset(a) - multiset{a[0]};
    assert multiset(b[1..]) == multiset(b) - multiset{a[0]};
  }

  // --------------------------------------------------------------- filters

  function Filter<T(!new)>(s: seq<T>, p: T -> bool): (r: seq<T>)
    ensures |r| <= |s|
    ensures forall x :: x in r <==> x in s && p(x)
  {
    if s == [] then []
    else if p(s[0]) then [s[0]] + Filter(s[1..], p)
    else Filter(s[1..], p)
  }

  /** `LIMIT n` */
  function Take<T>(s: seq<T>, n: nat): (r: seq<T>)
    ensures |r| <= n && |r| <= |s|
    ensures r <= s
    ensures |s| <= n ==> r == s
  {
    if |s| <= n then s else s[..n]
  }

  /**
   * `ORDER BY ... LIMIT n`: the kept rows are in order, there are `n` of
   * them unless fewer exist, they all come from the input, and every row
   * left out ranks no higher than any row kept.
   */
  lemma TakeSortTop<T(!new)>(s: seq<T>, le: (T, T) -> bool, n: nat)
    requires TotalPreorder(le)
    ensures Sorted(Take(Sort(s, le), n), le)
    ensures |Take(Sort(s, le), n)| == if |s| <= n then |s| else n
    ensures forall x :: x in Take(Sort(s, le), n) ==> x in s
    ensures forall x, y :: x in s && x !in Take(Sort(s, le), n) && y in Take(Sort(s, le), n) ==> le(y, x)
  {
    var t := Sort(s, le);
    var r := Take(t, n);
    SortSorted(s, le);
    forall x | x in r ensures x in s {
      assert x in multiset(t);
    }
    forall x, y | x in s && x !in r && y in r ensures le(y, x) {
      assert x in multiset(t);
      var j :| 0 <= j < |t| && t[j] == x;
      var i :| 0 <= i < |r| && r[i] == y;
      assert r[i] == t[i];
    }
  }

  /** No element occurs twice. */
  ghost predicate Distinct<T>(s: seq<T>) {
    forall i, j :: 0 <= i < j < |s| ==> s[i] != s[j]
  }

  lemma {:induction false} DistinctOnce<T>(s: seq<T>)
    requires Distinct(s)
    ensures forall x :: multiset(s)[x] <= 1
  {
    if s != [] {
      assert Distinct(s[1..]) by {
        forall i, j | 0 <= i < j < |s| - 1 ensures s[1..][i] != s[1..][j] {
          assert s[1..][i] == s[i + 1] && s[1..][j] == s[j + 1];
        }
      }
      DistinctOnce(s[1..]);
      assert s == [s[0]] + s[1..];
      assert s[0] !in s[1..];
    }
  }

  lemma OnceDistinct<T>(s: seq<T>)
    requires forall x :: multiset(s)[x] <= 1
    ensures Distinct(s)
  {
    forall i, j | 0 <= i < j < |s| ensures s[i] != s[j] {
      TwiceCounted(s, i, j);
    }
  }

  lemma TwiceCounted<T>(s: seq<T>, i: nat, j: nat)
    requires i < j < |s|
    ensures s[i] == s[j] ==> multiset(s)[s[i]] >= 2
  {
    assert s == s[..j] + s[j..];
    assert multiset(s) == multiset(s[..j]) + multiset(s[j..]);
    assert s[..j][i] == s[i] && s[j..][0] == s[j];
  }

  /** Sorting a sequence without repetitions gives one without repetitions. */
  lemma SortKeepsDistinct<T>(s: seq<T>, le: (T, T) -> bool)
    requires Distinct(s)
    ensures Distinct(Sort(s, le))
  {
    DistinctOnce(s);
    OnceDistinct(Sort(s, le));
  }

  // -------------------------------------------- first appearance and dedup

  /** Keys in the order of their first appearance, each once. */
  function DistinctKeys<K(==,!new)>(ks: seq<K>): seq<K> {
    DistinctFrom(ks, {})
  }

  function DistinctFrom<K(==,!new)>(ks: seq<K>, seen: set<K>): (r: seq<K>)
    ensures forall k :: k in r <==> k in ks && k !in seen
    ensures forall i, j :: 0 <= i < j < |r| ==> r[i] != r[j]
  {
    if ks == [] then []
    else if ks[0] in seen then DistinctFrom(ks[1..], seen)
    else [ks[0]] + DistinctFrom(ks[1..], seen + {ks[0]})
  }

  function Keys<T, K>(s: seq<T>, key: T -> K): (r: seq<K>)
    ensures |r| == |s|
    ensures forall i :: 0 <= i < |s| ==> r[i] == key(s[i])
  {
    if s == [] then [] else [key(s[0])] + Keys(s[1..], key)
  }

  /** `drop_duplicates(key, keep='first')` */
  function KeepFirst<T, K(==)>(s: seq<T>, key: T -> K): seq<T> {
    KeepFirstFrom(s, key, {})
  }

  function KeepFirstFrom<T, K(==)>(s: seq<T>, key: T -> K, seen: set<K>): seq<T> {
    if s == [] then []
    else if key(s[0]) in seen then KeepFirstFrom(s[1..], key, seen)
    else [s[0]] + KeepFirstFrom(s[1..], key, seen + {key(s[0])})
  }

  /** Index of the first element with key `k`; |s| when there is none. */
  function FirstIndex<T, K(==)>(s: seq<T>, key: T -> K, k: K): (i: nat)
    ensures i <= |s|
    ensures i < |s| ==> key(s[i]) == k
    ensures forall j :: 0 <= j < i ==> key(s[j]) != k
  {
    if s == [] then 0 else if key(s[0]) == k then 0 else 1 + FirstIndex(s[1..], key, k)
  }

  /**
   * Keep-first de-duplication keeps, for each key in the order of its first
   * appearance, exactly the first element that carries it.
   */
  lemma {:induction false} KeepFirstSpec<T, K(!new)>(s: seq<T>, key: T -> K, seen: set<K>)
    ensures Keys(KeepFirstFrom(s, key, seen), key) == DistinctFrom(Keys(s, key), seen)
    ensures forall r :: r in KeepFirstFrom(s, key, seen) ==>
      var i := FirstIndex(s, key, key(r)); i < |s| && s[i] == r
  {
    if s != [] {
      KeepFirstSpec(s[1..], key, if key(s[0]) in seen then seen else seen + {key(s[0])});
      assert Keys(s, key) == [key(s[0])] + Keys(s[1..], key);
      assert Keys(s, key)[1..] == Keys(s[1..], key);
      var out := KeepFirstFrom(s, key, seen);
      forall r | r in out ensures var i := FirstIndex(s, key, key(r)); i < |s| && s[i] == r {
        if key(s[0]) !in seen && r == s[0] {
        } else {
          var tail := KeepFirstFrom(s[1..], key, if key(s[0]) in seen then seen else seen + {key(s[0])});
          assert r in tail;
          KeepFirstKeysNew(s[1..], key, if key(s[0]) in seen then seen else seen + {key(s[0])}, r);
        }
      }
    }
  }

  /** An element kept from `s` after `seen` has a key outside `seen`. */
  lemma {:induction false} KeepFirstKeysNew<T, K>(s: seq<T>, key: T -> K, seen: set<K>, r: T)
    requires r in KeepFirstFrom(s, key, seen)
    ensures key(r) !in seen
  {
    if s != [] {
      if key(s[0]) in seen {
        KeepFirstKeysNew(s[1..], key, seen, r);
      } else if r != s[0] {
        KeepFirstKeysNew(s[1..], key, seen + {key(s[0])}, r);
      }
    }
  }

  /** No two elements left by keep-first share a key, and every key of the input is left. */
  lemma KeepFirstUnique<T, K(!new)>(s: seq<T>, key: T -> K)
    ensures forall i, j :: 0 <= i < j < |KeepFirst(s, key)| ==> key(KeepFirst(s, key)[i]) != key(KeepFirst(s, key)[j])
    ensures forall k :: k in Keys(KeepFirst(s, key), key) <==> k in Keys(s, key)
  {
    KeepFirstSpec(s, key, {});
    var out := KeepFirst(s, key);
    var ks := Keys(out, key);
    forall i, j | 0 <= i < j < |out| ensures key(out[i]) != key(out[j]) {
      assert ks[i] == key(out[i]) && ks[j] == key(out[j]);
    }
  }

  /** In a sorted input, the element keep-first leaves for a key precedes every other element with that key. */
  lemma KeepFirstLeast<T, K(!new)>(s: seq<T>, key: T -> K, le: (T, T) -> bool, x: T, y: T)
    requires Sorted(s, le) && x in KeepFirst(s, key) && y in s && key(y) == key(x)
    ensures x == y || le(x, y)
  {
    KeepFirstSpec(s, key, {});
    var f := FirstIndex(s, key, key(x));
    var j :| 0 <= j < |s| && s[j] == y;
    if j != f {
      assert f < j;
    }
  }

  /** Every element of the input has its key represented among the elements keep-first leaves. */
  lemma KeepFirstCovers<T, K(!new)>(s: seq<T>, key: T -> K, x: T)
    requires x in s
    ensures exists y :: y in KeepFirst(s, key) && key(y) == key(x)
  {
    KeepFirstCoversFrom(s, key, {}, x);
  }

  lemma {:induction false} KeepFirstCoversFrom<T, K>(s: seq<T>, key: T -> K, seen: set<K>, x: T)
    requires x in s && key(x) !in seen
    ensures exists y :: y in KeepFirstFrom(s, key, seen) && key(y) == key(x)
  {
    if key(s[0]) in seen {
      assert x != s[0];
      KeepFirstCoversFrom(s[1..], key, seen, x);
    } else if key(s[0]) != key(x) {
      assert x != s[0];
      KeepFirstCoversFrom(s[1..], key, seen + {key(s[0])}, x);
      var y :| y in KeepFirstFrom(s[1..], key, seen + {key(s[0])}) && key(y) == key(x);
      assert y in KeepFirstFrom(s, key, seen);
    } else {
      assert s[0] in KeepFirstFrom(s, key, seen);
    }
  }

  // ------------------------------------------------------ concatenation

  /** `pd.concat(dfs, ignore_index=True)` */
  function Concat<T(!new)>(batches: seq<seq<T>>): (all: seq<T>)
    ensures forall c :: c in all <==> exists b :: b in batches && c in b
  {
    if batches == [] then [] else batches[0] + Concat(batches[1..])
  }

  /** The keys that occur in `s`. */
  function KeySet<T, K>(s: seq<T>, key: T -> K): set<K> {
    if s == [] then {} else {key(s[0])} + KeySet(s[1..], key)
  }

  /** Keep-first over a concatenation: the second part is filtered by the keys of the first. */
  lemma {:induction false} KeepFirstAppend<T, K>(a: seq<T>, b: seq<T>, key: T -> K, seen: set<K>)
    ensures KeepFirstFrom(a + b, key, seen) ==
      KeepFirstFrom(a, key, seen) + KeepFirstFrom(b, key, seen + KeySet(a, key))
  {
    if a == [] {
      assert a + b == b;
      assert seen + KeySet(a, key) == seen;
    } else {
      assert (a + b)[0] == a[0];
      assert (a + b)[1..] == a[1..] + b;
      var k := key(a[0]);
      var next := if k in seen then seen else seen + {k};
      KeepFirstAppend(a[1..], b, key, next);
      assert next + KeySet(a[1..], key) == seen + KeySet(a, key);
    }
  }

  /** De-duplicating an already de-duplicated sequence again is one de-duplication with both seen-sets. */
  lemma {:induction false} KeepFirstTwice<T, K>(a: seq<T>, key: T -> K, inner: set<K>, outer: set<K>)
    ensures KeepFirstFrom(KeepFirstFrom(a, key, inner), key, outer) == KeepFirstFrom(a, key, outer + inner)
  {
    if a != [] {
      var k := key(a[0]);
      if k in inner {
        KeepFirstTwice(a[1..], key, inner, outer);
      } else {
        var rest := KeepFirstFrom(a[1..], key, inner + {k});
        assert ([a[0]] + rest)[0] == a[0];
        assert ([a[0]] + rest)[1..] == rest;
        var next := if k in outer then outer else outer + {k};
        KeepFirstTwice(a[1..], key, inner + {k}, next);
        assert next + (inner + {k}) == (outer + inner) + {k};
        if k in outer {
          assert (outer + inner) + {k} == outer + inner;
        }
      }
    }
  }

  /** Keep-first loses no key: kept and input rows cover the same keys beyond `seen`. */
  lemma {:induction false} KeepFirstKeySet<T, K>(a: seq<T>, key: T -> K, seen: set<K>)
    ensures KeySet(KeepFirstFrom(a, key, seen), key) + seen == KeySet(a, key) + seen
  {
    if a != [] {
      var k := key(a[0]);
      if k in seen {
        KeepFirstKeySet(a[1..], key, seen);
      } else {
        KeepFirstKeySet(a[1..], key, seen + {k});
        var rest := KeepFirstFrom(a[1..], key, seen + {k});
        assert ([a[0]] + rest)[0] == a[0];
        assert ([a[0]] + rest)[1..] == rest;
      }
    }
  }

  /**
   * De-duplicating every block first and then their concatenation gives the
   * same rows as one de-duplication of the concatenated blocks.
   */
  lemma {:induction false} KeepFirstBlocks<T(!new), K>(xs: seq<seq<T>>, bs: seq<seq<T>>, key: T -> K, seen: set<K>)
    requires |xs| == |bs|
    requires forall i :: 0 <= i < |bs| ==> xs[i] == KeepFirst(bs[i], key)
    ensures KeepFirstFrom(Concat(xs), key, seen) == KeepFirstFrom(Concat(bs), key, seen)
  {
    if bs != [] {
      KeepFirstAppend(xs[0], Concat(xs[1..]), key, seen);
      KeepFirstAppend(bs[0], Concat(bs[1..]), key, seen);
      KeepFirstTwice(bs[0], key, {}, seen);
      KeepFirstKeySet(bs[0], key, {});
      assert seen + {} == seen;
      assert KeySet(xs[0], key) == KeySet(bs[0], key);
      KeepFirstBlocks(xs[1..], bs[1..], key, seen + KeySet(bs[0], key));
    }
  }

  /** Every element keep-first leaves is the first element of the input with its key. */
  lemma KeepFirstIsFirst<T, K(!new)>(s: seq<T>, key: T -> K, x: T)
    requires x in KeepFirst(s, key)
    ensures exists i :: 0 <= i < |s| && s[i] == x && forall j :: 0 <= j < i ==> key(s[j]) != key(x)
  {
    KeepFirstSpec(s, key, {});
    var i := FirstIndex(s, key, key(x));
    assert s[i] == x;
  }

  /** A column-wise `apply`: `f` on every row, in order. */
  method ApplyRows<A, B>(rows: seq<A>, f: A -> B) returns (out: seq<B>)
    ensures |out| == |rows|
    ensures forall j :: 0 <= j < |rows| ==> out[j] == f(rows[j])
  {
    out := [];
    for k := 0 to |rows|
      invariant |out| == k
      invariant forall j :: 0 <= j < k ==> out[j] == f(rows[j])
    {
      out := out + [f(rows[k])];
    }
  }
}
