/** Finite sums over sequences and over the rows of a keyed table. */
module Sums {

  datatype Option<+T> = None | Some(value: T)

  function Max(a: int, b: int): int { if a >= b then a else b }

  function Min(a: int, b: int): int { if a <= b then a else b }

  /** The sum of `w` over the elements of `s`. */
  function SumSeq<T>(s: seq<T>, w: T -> int): int {
    if s == [] then 0 else w(s[0]) + SumSeq(s[1..], w)
  }

  lemma {:induction false} SumSeqSame<T>(s: seq<T>, v: T -> int, w: T -> int)
    requires forall x :: x in s ==> v(x) == w(x)
    ensures SumSeq(s, v) == SumSeq(s, w)
  {
    if s != [] {
      SumSeqSame(s[1..], v, w);
    }
  }

  lemma {:induction false} SumSeqAdd<T>(s: seq<T>, u: T -> int, v: T -> int, w: T -> int)
    requires forall x :: x in s ==> w(x) == u(x) + v(x)
    ensures SumSeq(s, w) == SumSeq(s, u) + SumSeq(s, v)
  {
    if s != [] {
      SumSeqAdd(s[1..], u, v, w);
    }
  }

  lemma {:induction false} SumSeqSnoc<T>(s: seq<T>, x: T, w: T -> int)
    ensures SumSeq(s + [x], w) == SumSeq(s, w) + w(x)
  {
    if s == [] {
      assert [x][1..] == [];
    } else {
      assert (s + [x])[1..] == s[1..] + [x];
      SumSeqSnoc(s[1..], x, w);
    }
  }

  lemma {:induction false} SumSeqNonNeg<T>(s: seq<T>, w: T -> int)
    requires forall x :: x in s ==> w(x) >= 0
    ensures SumSeq(s, w) >= 0
    ensures SumSeq(s, w) == 0 <==> forall x :: x in s ==> w(x) == 0
  {
    if s != [] {
      SumSeqNonNeg(s[1..], w);
      assert forall x :: x in s <==> x == s[0] || x in s[1..];
    }
  }

  /** The sum of the values of a table column. */
  ghost function SumMap<K(!new)>(m: map<K, int>): int {
    if m == map[] then 0 else
      var k :| k in m;
      m[k] + SumMap(m - {k})
  }

  lemma {:induction false} SumMapRemove<K(!new)>(m: map<K, int>, k: K)
    requires k in m
    ensures SumMap(m) == m[k] + SumMap(m - {k})
    decreases |m|
  {
    var c :| c in m && SumMap(m) == m[c] + SumMap(m - {c});
    if c != k {
      SumMapRemove(m - {c}, k);
      SumMapRemove(m - {k}, c);
      assert m - {c} - {k} == m - {k} - {c};
    }
  }

  /** Writing one row moves the column sum by the difference of the old and the new value. */
  lemma SumMapWrite<K(!new)>(m: map<K, int>, k: K, v: int)
    ensures SumMap(m[k := v]) == SumMap(m) - (if k in m then m[k] else 0) + v
  {
    SumMapRemove(m[k := v], k);
    assert m[k := v] - {k} == m - {k};
    if k in m {
      SumMapRemove(m, k);
    } else {
      assert m - {k} == m;
    }
  }

  lemma SumMapDelete<K(!new)>(m: map<K, int>, k: K)
    ensures SumMap(m - {k}) == SumMap(m) - (if k in m then m[k] else 0)
  {
    if k in m {
      SumMapRemove(m, k);
    } else {
      assert m - {k} == m;
    }
  }

  lemma {:induction false} SumMapNonNeg<K(!new)>(m: map<K, int>)
    requires forall k :: k in m ==> m[k] >= 0
    ensures SumMap(m) >= 0
    ensures SumMap(m) == 0 <==> forall k :: k in m ==> m[k] == 0
    decreases |m|
  {
    if m != map[] {
      var k :| k in m;
      SumMapRemove(m, k);
      SumMapNonNeg(m - {k});
      assert forall j :: j in m <==> j == k || j in m - {k};
    }
  }

  /** A table split in two by its keys has the two partial sums. */
  lemma {:induction false} SumMapSplit<K(!new)>(m: map<K, int>, left: set<K>)
    ensures SumMap(m) == SumMap(m - left) + SumMap(map k | k in m && k in left :: m[k])
    decreases |m|
  {
    var inner := map k | k in m && k in left :: m[k];
    if m == map[] {
      assert m - left == map[] && inner == map[];
    } else {
      var k :| k in m;
      var m' := m - {k};
      SumMapSplit(m', left);
      SumMapRemove(m, k);
      var inner' := map j | j in m' && j in left :: m'[j];
      if k in left {
        assert m' - left == m - left;
        SumMapRemove(inner, k);
        assert inner - {k} == inner';
      } else {
        assert inner' == inner;
        SumMapRemove(m - left, k);
        assert m - left - {k} == m' - left;
      }
    }
  }

  // ----- sums over the rows of a table -----

  function Column<K(!new), T>(m: map<K, T>, f: T -> int): map<K, int> { map k | k in m :: f(m[k]) }

  /** The sum of `f` over the rows of a table. */
  ghost function Sum<K(!new), T>(m: map<K, T>, f: T -> int): int { SumMap(Column(m, f)) }

  lemma SumWrite<K(!new), T>(m: map<K, T>, k: K, x: T, f: T -> int)
    ensures Sum(m[k := x], f) == Sum(m, f) - (if k in m then f(m[k]) else 0) + f(x)
  {
    SumMapWrite(Column(m, f), k, f(x));
    assert Column(m[k := x], f) == Column(m, f)[k := f(x)];
  }

  lemma SumDelete<K(!new), T>(m: map<K, T>, k: K, f: T -> int)
    requires k in m
    ensures Sum(m - {k}, f) == Sum(m, f) - f(m[k])
  {
    SumMapDelete(Column(m, f), k);
    assert Column(m - {k}, f) == Column(m, f) - {k};
  }

  lemma SumEmpty<K(!new), T>(m: map<K, T>, f: T -> int)
    requires m == map[]
    ensures Sum(m, f) == 0
  {
    assert Column(m, f) == map[];
  }

  lemma {:induction false} SumBelow<K(!new), T>(m: map<K, T>, f: T -> int, g: T -> int)
    requires forall k :: k in m ==> f(m[k]) <= g(m[k])
    ensures Sum(m, f) <= Sum(m, g)
    decreases |m|
  {
    if m == map[] {
      SumEmpty(m, f);
      SumEmpty(m, g);
    } else {
      var k :| k in m;
      SumDelete(m, k, f);
      SumDelete(m, k, g);
      SumBelow(m - {k}, f, g);
    }
  }

  lemma SumAlike<K(!new), T>(m: map<K, T>, f: T -> int, g: T -> int)
    requires forall k :: k in m ==> f(m[k]) == g(m[k])
    ensures Sum(m, f) == Sum(m, g)
  {
    SumBelow(m, f, g);
    SumBelow(m, g, f);
  }

  lemma {:induction false} SumAdd<K(!new), T>(m: map<K, T>, f: T -> int, g: T -> int, h: T -> int)
    requires forall k :: k in m ==> h(m[k]) == f(m[k]) + g(m[k])
    ensures Sum(m, h) == Sum(m, f) + Sum(m, g)
    decreases |m|
  {
    if m == map[] {
      SumEmpty(m, f);
      SumEmpty(m, g);
      SumEmpty(m, h);
    } else {
      var k :| k in m;
      SumDelete(m, k, f);
      SumDelete(m, k, g);
      SumDelete(m, k, h);
      SumAdd(m - {k}, f, g, h);
    }
  }
}
