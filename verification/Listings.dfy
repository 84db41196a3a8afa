/** Maps written out as sorted lists and read back. */
module Listings {

  ghost predicate DistinctKeys<K, V>(s: seq<(K, V)>) {
    forall i, j :: 0 <= i < j < |s| ==> s[i].0 != s[j].0
  }

  /** The list holds every entry of the map exactly once. */
  ghost predicate Lists<K, V>(s: seq<(K, V)>, m: map<K, V>) {
    && DistinctKeys(s)
    && (forall i :: 0 <= i < |s| ==> s[i].0 in m && m[s[i].0] == s[i].1)
    && (forall k :: k in m ==> exists i :: 0 <= i < |s| && s[i].0 == k)
  }

  function AsMap<K, V>(s: seq<(K, V)>): map<K, V> {
    if s == [] then map[] else AsMap(s[..|s| - 1])[s[|s| - 1].0 := s[|s| - 1].1]
  }

  /** Reading a listing back yields the map it was written from. */
  lemma {:induction false} AsMapInverts<K, V>(s: seq<(K, V)>, m: map<K, V>)
    requires Lists(s, m)
    ensures AsMap(s) == m
  {
    AsMapLists(s);
    var r := AsMap(s);
    forall k | k in m
      ensures k in r && r[k] == m[k]
    {
      var i :| 0 <= i < |s| && s[i].0 == k;
    }
  }

  lemma {:induction false} AsMapLists<K, V>(s: seq<(K, V)>)
    requires DistinctKeys(s)
    ensures Lists(s, AsMap(s))
  {
    if s != [] {
      var p, last, m := s[..|s| - 1], s[|s| - 1], AsMap(s[..|s| - 1]);
      AsMapLists(p);
      forall k | k in AsMap(s)
        ensures exists i :: 0 <= i < |s| && s[i].0 == k
      {
        if k == last.0 {
          assert s[|s| - 1].0 == k;
        } else {
          var i :| 0 <= i < |p| && p[i].0 == k;
          assert s[i].0 == k;
        }
      }
      forall i | 0 <= i < |s|
        ensures s[i].0 in AsMap(s) && AsMap(s)[s[i].0] == s[i].1
      {
        assert i < |p| ==> p[i] == s[i] && p[i].0 in m;
      }
    }
  }

  lemma {:induction false} ListedNonempty<K, V>(s: seq<(K, V)>, m: map<K, V>)
    requires Lists(s, m)
    ensures s != [] ==> m != map[]
  {
    if s != [] {
      assert s[0].0 in m;
    }
  }

  // ------------------------------------------------------------------- order

  ghost predicate StrictTotal<K(!new)>(less: (K, K) -> bool) {
    && (forall a :: !less(a, a))
    && (forall a, b, c :: less(a, b) && less(b, c) ==> less(a, c))
    && (forall a, b :: a == b || less(a, b) || less(b, a))
  }

  /** The order of texts, character by character. */
  predicate TextLess(a: string, b: string) {
    if a == [] || b == [] then a == [] && b != []
    else a[0] < b[0] || (a[0] == b[0] && TextLess(a[1..], b[1..]))
  }

  lemma {:induction false} TextLessOrders(a: string, b: string, c: string)
    ensures !TextLess(a, a)
    ensures TextLess(a, b) && TextLess(b, c) ==> TextLess(a, c)
    ensures a == b || TextLess(a, b) || TextLess(b, a)
    decreases |a|
  {
    if a != [] {
      var p := if b == [] then [] else b[1..];
      var q := if c == [] then [] else c[1..];
      TextLessOrders(a[1..], p, q);
      assert b != [] && a[0] == b[0] && a[1..] == p ==> a == [a[0]] + a[1..] && b == [b[0]] + p;
    }
  }

  ghost predicate Sorted<K, V>(s: seq<(K, V)>, less: (K, K) -> bool) {
    forall i, j :: 0 <= i < j < |s| ==> less(s[i].0, s[j].0)
  }

  /** Inserts one entry before the first greater key. */
  method InsertSorted<K(!new), V>(s: seq<(K, V)>, e: (K, V), less: (K, K) -> bool) returns (r: seq<(K, V)>, at: nat)
    requires StrictTotal(less) && Sorted(s, less)
    requires forall i :: 0 <= i < |s| ==> s[i].0 != e.0
    ensures at <= |s| && r == s[..at] + [e] + s[at..]
    ensures Sorted(r, less)
  {
    at := 0;
    while at < |s| && less(s[at].0, e.0)
      invariant at <= |s|
      invariant forall i :: 0 <= i < at ==> less(s[i].0, e.0)
    {
      at := at + 1;
    }
    forall i | at <= i < |s|
      ensures less(e.0, s[i].0)
    {
    }
    r := s[..at] + [e] + s[at..];
  }

  /** Writes a map as its sorted listing, visiting the entries in any order. */
  method Enumerate<K(==, !new), V>(m: map<K, V>, less: (K, K) -> bool) returns (s: seq<(K, V)>)
    requires StrictTotal(less)
    ensures Lists(s, m) && Sorted(s, less)
  {
    s := [];
    var rest := m.Keys;
    ghost var done: map<K, V> := map[];
    while rest != {}
      invariant rest <= m.Keys
      invariant done == map k | k in m && k !in rest :: m[k]
      invariant Lists(s, done) && Sorted(s, less)
      decreases |rest|
    {
      var k :| k in rest;
      var t, at := InsertSorted(s, (k, m[k]), less);
      ListsInsert(s, done, (k, m[k]), at);
      s, rest, done := t, rest - {k}, done[k := m[k]];
    }
    assert done == m;
  }

  lemma {:induction false} ListsInsert<K, V>(s: seq<(K, V)>, m: map<K, V>, e: (K, V), at: nat)
    requires Lists(s, m) && e.0 !in m && at <= |s|
    ensures Lists(s[..at] + [e] + s[at..], m[e.0 := e.1])
  {
    var t, n := s[..at] + [e] + s[at..], m[e.0 := e.1];
    assert forall i :: 0 <= i < at ==> t[i] == s[i];
    assert t[at] == e;
    assert forall i :: at < i < |t| ==> t[i] == s[i - 1];
    assert DistinctKeys(t);
    forall k | k in n
      ensures exists i :: 0 <= i < |t| && t[i].0 == k
    {
      if k == e.0 {
        assert t[at].0 == k;
      } else {
        var i :| 0 <= i < |s| && s[i].0 == k;
        if i < at {
          assert t[i].0 == k;
        } else {
          assert t[i + 1] == s[i];
        }
      }
    }
  }
}
