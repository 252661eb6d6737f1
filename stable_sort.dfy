/**
 * The ordering both the top-users page and the live feed get from
 * `Array.prototype.sort` with a descending comparator `(a, b) => key(b) - key(a)`.
 * That sort is stable, so its result is fully determined: non-increasing by key,
 * a permutation of the input, and among elements with equal keys the input order.
 * `SortDesc` is a stable insertion sort that has exactly these properties.
 */
module StableSort {

  /** Keys never increase from left to right. */
  ghost predicate SortedDesc<T>(s: seq<T>, key: T -> int) {
    forall i, j :: 0 <= i < j < |s| ==> key(s[i]) >= key(s[j])
  }

  /** The elements of `s` whose key is `v`, in their order in `s`. */
  function KeyFilter<T>(s: seq<T>, key: T -> int, v: int): (r: seq<T>)
    ensures |r| <= |s|
    ensures forall x :: x in r ==> x in s && key(x) == v
  {
    if s == [] then []
    else (if key(s[0]) == v then [s[0]] else []) + KeyFilter(s[1..], key, v)
  }

  /** Insert `x` in front of the first element whose key is not larger than its own. */
  function Insert<T>(x: T, s: seq<T>, key: T -> int): (r: seq<T>)
    ensures |r| == |s| + 1
    ensures multiset(r) == multiset(s) + multiset{x}
    ensures r[0] == x || (s != [] && r[0] == s[0])
  {
    if s == [] || key(x) >= key(s[0]) then [x] + s
    else
      assert s == [s[0]] + s[1..];
      [s[0]] + Insert(x, s[1..], key)
  }

  /** Stable sort by `key`, largest first. */
  function SortDesc<T>(s: seq<T>, key: T -> int): (r: seq<T>)
    ensures |r| == |s|
    ensures multiset(r) == multiset(s)
  {
    if s == [] then []
    else
      assert s == [s[0]] + s[1..];
      Insert(s[0], SortDesc(s[1..], key), key)
  }

  /** The part of a single element, `[y]` or `[]`. */
  function KeyPart<T>(y: T, key: T -> int, v: int): seq<T> {
    if key(y) == v then [y] else []
  }

  lemma KeyFilterCons<T>(y: T, t: seq<T>, key: T -> int, v: int)
    ensures KeyFilter([y] + t, key, v) == KeyPart(y, key, v) + KeyFilter(t, key, v)
  {
    assert ([y] + t)[0] == y;
    assert ([y] + t)[1..] == t;
  }

  lemma {:induction false} KeyFilterAppend<T>(a: seq<T>, b: seq<T>, key: T -> int, v: int)
    ensures KeyFilter(a + b, key, v) == KeyFilter(a, key, v) + KeyFilter(b, key, v)
    decreases |a|
  {
    if a != [] {
      assert a + b == [a[0]] + (a[1..] + b);
      assert a == [a[0]] + a[1..];
      KeyFilterCons(a[0], a[1..] + b, key, v);
      KeyFilterCons(a[0], a[1..], key, v);
      KeyFilterAppend(a[1..], b, key, v);
    } else {
      assert a + b == b;
    }
  }

  lemma {:induction false} InsertSorted<T>(x: T, s: seq<T>, key: T -> int)
    requires SortedDesc(s, key)
    ensures SortedDesc(Insert(x, s, key), key)
    decreases |s|
  {
    if s != [] && key(x) < key(s[0]) {
      InsertSorted(x, s[1..], key);
      var r := Insert(x, s, key);
      assert r == [s[0]] + Insert(x, s[1..], key);
      forall j | 1 <= j < |r| ensures key(r[0]) >= key(r[j]) {
        assert r[j] in multiset(Insert(x, s[1..], key));
        assert r[j] == x || r[j] in s[1..];
      }
    }
  }

  /** Inserting into a sorted list does not reorder elements of equal key. */
  lemma {:induction false} InsertStable<T>(x: T, s: seq<T>, key: T -> int, v: int)
    requires SortedDesc(s, key)
    ensures KeyFilter(Insert(x, s, key), key, v) == KeyFilter([x] + s, key, v)
    decreases |s|
  {
    if s != [] && key(x) < key(s[0]) {
      var t := s[1..];
      assert s == [s[0]] + t;
      InsertStable(x, t, key, v);
      KeyFilterCons(s[0], Insert(x, t, key), key, v);
      KeyFilterCons(x, t, key, v);
      KeyFilterCons(x, s, key, v);
      KeyFilterCons(s[0], t, key, v);
      // At most one of `s[0]` and `x` has key `v`, since key(x) < key(s[0]).
      assert KeyPart(s[0], key, v) + KeyPart(x, key, v) == KeyPart(x, key, v) + KeyPart(s[0], key, v);
    }
  }

  /** The result of `SortDesc` is sorted. */
  lemma {:induction false} SortDescSorted<T>(s: seq<T>, key: T -> int)
    ensures SortedDesc(SortDesc(s, key), key)
    decreases |s|
  {
    if s != [] {
      SortDescSorted(s[1..], key);
      InsertSorted(s[0], SortDesc(s[1..], key), key);
    }
  }

  /** `SortDesc` is stable: for every key, the elements with that key keep their order. */
  lemma {:induction false} SortDescStable<T>(s: seq<T>, key: T -> int, v: int)
    ensures KeyFilter(SortDesc(s, key), key, v) == KeyFilter(s, key, v)
    decreases |s|
  {
    if s != [] {
      var rest := SortDesc(s[1..], key);
      assert s == [s[0]] + s[1..];
      SortDescStable(s[1..], key, v);
      SortDescSorted(s[1..], key);
      InsertStable(s[0], rest, key, v);
      KeyFilterCons(s[0], rest, key, v);
      KeyFilterCons(s[0], s[1..], key, v);
    }
  }

  lemma {:induction false} KeyFilterMember<T>(s: seq<T>, x: T, key: T -> int)
    requires x in s
    ensures x in KeyFilter(s, key, key(x))
    decreases |s|
  {
    assert s == [s[0]] + s[1..];
    KeyFilterCons(s[0], s[1..], key, key(x));
    if s[0] != x {
      KeyFilterMember(s[1..], x, key);
    }
  }

  /** Two sorted lists with the same elements per key start with the same element. */
  lemma SameHead<T>(r: seq<T>, q: seq<T>, key: T -> int)
    requires r != [] && q != []
    requires SortedDesc(r, key) && SortedDesc(q, key)
    requires forall v :: KeyFilter(r, key, v) == KeyFilter(q, key, v)
    ensures r[0] == q[0]
  {
    KeyFilterMember(q, q[0], key);
    assert q[0] in KeyFilter(r, key, key(q[0]));
    KeyFilterMember(r, r[0], key);
    assert r[0] in KeyFilter(q, key, key(r[0]));
    var j :| 0 <= j < |q| && q[j] == r[0];
    var k :| 0 <= k < |r| && r[k] == q[0];
    assert key(q[0]) >= key(q[j]) && key(r[0]) >= key(r[k]);
    var m := key(r[0]);
    assert r == [r[0]] + r[1..] && q == [q[0]] + q[1..];
    KeyFilterCons(r[0], r[1..], key, m);
    KeyFilterCons(q[0], q[1..], key, m);
    assert r[0] == KeyFilter(r, key, m)[0] == KeyFilter(q, key, m)[0] == q[0];
  }

  /** Dropping an equal head keeps the per-key orders equal. */
  lemma SameTailFilters<T>(r: seq<T>, q: seq<T>, key: T -> int, v: int)
    requires r != [] && q != [] && r[0] == q[0]
    requires KeyFilter(r, key, v) == KeyFilter(q, key, v)
    ensures KeyFilter(r[1..], key, v) == KeyFilter(q[1..], key, v)
  {
    assert r == [r[0]] + r[1..] && q == [q[0]] + q[1..];
    KeyFilterCons(r[0], r[1..], key, v);
    KeyFilterCons(q[0], q[1..], key, v);
    var part := KeyPart(r[0], key, v);
    assert KeyFilter(r[1..], key, v) == KeyFilter(r, key, v)[|part|..];
    assert KeyFilter(q[1..], key, v) == KeyFilter(q, key, v)[|part|..];
  }

  /**
   * A stable descending sort has only one possible result: two sorted lists that
   * agree on the order of the elements of every key are equal. So `SortDesc`
   * gives what any stable sort with the same comparator gives.
   */
  lemma {:induction false} SortedStableUnique<T>(r: seq<T>, q: seq<T>, key: T -> int)
    requires SortedDesc(r, key) && SortedDesc(q, key)
    requires forall v :: KeyFilter(r, key, v) == KeyFilter(q, key, v)
    ensures r == q
    decreases |r|
  {
    EmptyTogether(r, q, key);
    if r != [] {
      SameHead(r, q, key);
      forall v ensures KeyFilter(r[1..], key, v) == KeyFilter(q[1..], key, v) {
        SameTailFilters(r, q, key, v);
      }
      SortedTail(r, key);
      SortedTail(q, key);
      SortedStableUnique(r[1..], q[1..], key);
      assert r == [r[0]] + r[1..] && q == [q[0]] + q[1..];
    }
  }

  /** Lists with the same elements per key are empty together. */
  lemma EmptyTogether<T>(r: seq<T>, q: seq<T>, key: T -> int)
    requires forall v :: KeyFilter(r, key, v) == KeyFilter(q, key, v)
    ensures r == [] <==> q == []
  {
    if q != [] {
      KeyFilterMember(q, q[0], key);
      assert q[0] in KeyFilter(r, key, key(q[0]));
    }
    if r != [] {
      KeyFilterMember(r, r[0], key);
      assert r[0] in KeyFilter(q, key, key(r[0]));
    }
  }

  /** The tail of a descending list is descending. */
  lemma SortedTail<T>(s: seq<T>, key: T -> int)
    requires s != [] && SortedDesc(s, key)
    ensures SortedDesc(s[1..], key)
  {
    forall i, j | 0 <= i < j < |s[1..]| ensures key(s[1..][i]) >= key(s[1..][j]) {
      assert s[1..][i] == s[i + 1] && s[1..][j] == s[j + 1];
    }
  }

  /** Any sorted, stable rearrangement of `s` is `SortDesc(s)`. */
  lemma SortDescCharacterized<T>(s: seq<T>, r: seq<T>, key: T -> int)
    requires SortedDesc(r, key)
    requires forall v :: KeyFilter(r, key, v) == KeyFilter(s, key, v)
    ensures r == SortDesc(s, key)
  {
    SortDescSorted(s, key);
    forall v ensures KeyFilter(r, key, v) == KeyFilter(SortDesc(s, key), key, v) {
      SortDescStable(s, key, v);
    }
    SortedStableUnique(r, SortDesc(s, key), key);
  }
}
