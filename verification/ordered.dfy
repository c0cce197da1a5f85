/**
 * Iteration over a `BTreeMap` in ascending key order, which is how the MSL options hand
 * their three override maps to the native compiler. Keys are ordered by a strict total
 * order given as a function; `Flatten` turns a map into one record per entry, sorted.
 */
module Ordered {

  /** `less` is irreflexive, transitive and total: the `Ord` contract of a map key. */
  ghost predicate StrictTotalOrder<K(!new)>(less: (K, K) -> bool)
  {
    && (forall a :: !less(a, a))
    && (forall a, b, c :: less(a, b) && less(b, c) ==> less(a, c))
    && (forall a, b :: a == b || less(a, b) || less(b, a))
  }

  /** Strictly ascending: every key before a later one, so no key twice. */
  ghost predicate Sorted<K(!new)>(keys: seq<K>, less: (K, K) -> bool)
  {
    forall i, j :: 0 <= i < j < |keys| ==> less(keys[i], keys[j])
  }

  /** A finite, non-empty set has a least element. */
  lemma {:induction false} LeastExists<K(!new)>(s: set<K>, less: (K, K) -> bool)
    requires s != {} && StrictTotalOrder(less)
    ensures exists m :: m in s && forall x :: x in s && x != m ==> less(m, x)
    decreases |s|
  {
    var y :| y in s;
    if s == {y} {
      assert forall x :: x in s && x != y ==> less(y, x);
      return;
    }
    LeastExists(s - {y}, less);
    var rest :| rest in s - {y} && forall x :: x in s - {y} && x != rest ==> less(rest, x);
    LeastAdd(s, y, rest, less);
  }

  /** Adding `y` back: the lesser of `y` and the least of the rest is least. */
  lemma LeastAdd<K(!new)>(s: set<K>, y: K, rest: K, less: (K, K) -> bool)
    requires StrictTotalOrder(less) && y in s && rest in s - {y}
    requires forall x :: x in s - {y} && x != rest ==> less(rest, x)
    ensures exists m :: m in s && forall x :: x in s && x != m ==> less(m, x)
  {
    var m := if less(y, rest) then y else rest;
    forall x | x in s && x != m
      ensures less(m, x)
    {
      if x == y {
        assert m == rest && !less(y, rest) && y != rest;
      } else if x == rest {
        assert m == y;
      } else if m == y {
        assert less(y, rest) && less(rest, x);
      }
    }
  }

  /** The least element of a finite, non-empty set. */
  ghost function Least<K(!new)>(s: set<K>, less: (K, K) -> bool): (m: K)
    requires s != {} && StrictTotalOrder(less)
    ensures m in s && forall x :: x in s && x != m ==> less(m, x)
  {
    LeastExists(s, less);
    var m :| m in s && forall x :: x in s && x != m ==> less(m, x);
    m
  }

  /** The keys of `s` in ascending order, taking least elements one at a time. */
  ghost function AscendingKeys<K(!new)>(s: set<K>, less: (K, K) -> bool): (keys: seq<K>)
    requires StrictTotalOrder(less)
    ensures Sorted(keys, less) && |keys| == |s|
    ensures forall k :: k in keys <==> k in s
    decreases |s|
  {
    if s == {} then []
    else
      var m := Least(s, less);
      var rest := AscendingKeys(s - {m}, less);
      assert forall j :: 0 <= j < |rest| ==> less(m, rest[j]);
      [m] + rest
  }

  /** Two ascending sequences with the same elements are the same sequence. */
  lemma {:induction false} SortedUnique<K(!new)>(a: seq<K>, b: seq<K>, less: (K, K) -> bool)
    requires StrictTotalOrder(less) && Sorted(a, less) && Sorted(b, less)
    requires forall k :: k in a <==> k in b
    ensures a == b
    decreases |a|
  {
    if |a| == 0 {
      return;
    }
    assert a[0] in b && b[0] in a;
    forall k
      ensures k in a[1..] <==> k in b[1..]
    {
      if k in a[1..] {
        var i :| 1 <= i < |a| && a[i] == k;
        assert less(a[0], k) && k in b;
        var j :| 0 <= j < |b| && b[j] == k;
        assert j != 0 && b[1..][j - 1] == k;
      }
      if k in b[1..] {
        var j :| 1 <= j < |b| && b[j] == k;
        assert less(b[0], k) && k in a;
        var i :| 0 <= i < |a| && a[i] == k;
        assert i != 0 && a[1..][i - 1] == k;
      }
    }
    SortedUnique(a[1..], b[1..], less);
    assert a == [a[0]] + a[1..] && b == [b[0]] + b[1..];
  }

  /**
   * The keys of `s` in ascending order, by selecting the least remaining key
   * until none is left.
   */
  method Ascending<K(==,!new)>(s: set<K>, less: (K, K) -> bool) returns (keys: seq<K>)
    requires StrictTotalOrder(less)
    ensures Sorted(keys, less) && |keys| == |s|
    ensures forall k :: k in keys <==> k in s
    ensures keys == AscendingKeys(s, less)
  {
    keys := [];
    var rest := s;
    while rest != {}
      invariant rest <= s && |keys| + |rest| == |s|
      invariant Sorted(keys, less)
      invariant forall k :: k in keys <==> k in s && k !in rest
      invariant forall i, x :: 0 <= i < |keys| && x in rest ==> less(keys[i], x)
      decreases |rest|
    {
      LeastExists(rest, less);
      var m :| m in rest && forall x :: x in rest && x != m ==> less(m, x);
      keys := keys + [m];
      rest := rest - {m};
    }
    SortedUnique(keys, AscendingKeys(s, less), less);
  }

  /** One record per entry of `m`, in ascending key order. */
  ghost function Table<K(!new), V, R>(m: map<K, V>, less: (K, K) -> bool, record: (K, V) -> R): seq<R>
    requires StrictTotalOrder(less)
  {
    var keys := AscendingKeys(m.Keys, less);
    seq(|keys|, i requires 0 <= i < |keys| => record(keys[i], m[keys[i]]))
  }

  /**
   * When each record shows the key it was made from, the table holds exactly one
   * record per entry, made from that entry, in strictly ascending key order.
   */
  lemma TableContents<K(!new), V, R>(m: map<K, V>, less: (K, K) -> bool, record: (K, V) -> R, key: R -> K)
    requires StrictTotalOrder(less)
    requires forall k, v :: key(record(k, v)) == k
    ensures var t := Table(m, less, record);
      && |t| == |m|
      && (forall i, j :: 0 <= i < j < |t| ==> less(key(t[i]), key(t[j])))
      && (forall i :: 0 <= i < |t| ==> key(t[i]) in m && t[i] == record(key(t[i]), m[key(t[i])]))
      && (forall k :: k in m ==> exists i :: 0 <= i < |t| && key(t[i]) == k)
  {
    var keys := AscendingKeys(m.Keys, less);
    var t := Table(m, less, record);
    assert |m.Keys| == |m|;
    assert forall i :: 0 <= i < |t| ==> key(t[i]) == keys[i];
    forall k | k in m
      ensures exists i :: 0 <= i < |t| && key(t[i]) == k
    {
      assert k in keys;
      var i :| 0 <= i < |keys| && keys[i] == k;
      assert key(t[i]) == k;
    }
  }

  /** The table of `m`, entry by entry, for its ascending keys `keys`. */
  lemma TableAt<K(!new), V, R>(m: map<K, V>, less: (K, K) -> bool, record: (K, V) -> R, keys: seq<K>)
    requires StrictTotalOrder(less) && keys == AscendingKeys(m.Keys, less)
    ensures |Table(m, less, record)| == |keys|
    ensures forall j :: 0 <= j < |keys| ==> keys[j] in m && Table(m, less, record)[j] == record(keys[j], m[keys[j]])
  {
  }

  /** `iter().map(record)` collected: the table of `m`, built one entry at a time. */
  method Flatten<K(==,!new), V, R>(m: map<K, V>, less: (K, K) -> bool, record: (K, V) -> R) returns (t: seq<R>)
    requires StrictTotalOrder(less)
    ensures t == Table(m, less, record)
  {
    var keys := Ascending(m.Keys, less);
    t := Records(m, keys, record);
    TableAt(m, less, record, keys);
  }

  /** One record per key of `keys`, in order. */
  method Records<K, V, R>(m: map<K, V>, keys: seq<K>, record: (K, V) -> R) returns (t: seq<R>)
    requires forall j :: 0 <= j < |keys| ==> keys[j] in m
    ensures |t| == |keys| && forall j :: 0 <= j < |keys| ==> t[j] == record(keys[j], m[keys[j]])
  {
    t := [];
    var i := 0;
    while i < |keys|
      invariant 0 <= i <= |keys| && |t| == i
      invariant forall j :: 0 <= j < i ==> t[j] == record(keys[j], m[keys[j]])
    {
      t := t + [record(keys[i], m[keys[i]])];
      i := i + 1;
    }
  }
}
