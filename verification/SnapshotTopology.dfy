/** The lists of backends and namespaces that a snapshot carries, and the order in which the
    builder puts them. */
module SnapshotTopology {
  import opened Listings

  /** One backend or namespace, under its identity, or the nil that a provider may hand over. */
  datatype Entry = Missing | Entry(id: string, rest: string)

  datatype Topology = Topology(backends: seq<Entry>, namespaces: seq<Entry>)

  /** The builder's comparison: nil first, then by identity. */
  predicate Before(a: Entry, b: Entry) {
    if a.Missing? || b.Missing? then a.Missing? && b.Entry? else TextLess(a.id, b.id)
  }

  predicate Ascending(list: seq<Entry>) {
    forall i, j :: 0 <= i < j < |list| ==> !Before(list[j], list[i])
  }

  /** Entries under one identity do not differ, so there is only one way to sort the list. */
  predicate Unambiguous(list: seq<Entry>) {
    forall i, j :: 0 <= i < |list| && 0 <= j < |list| ==>
      Before(list[i], list[j]) || Before(list[j], list[i]) || list[i] == list[j]
  }

  /** What a sort may make of the list; it need not be stable. */
  predicate SortsTo(given: seq<Entry>, kept: seq<Entry>) {
    multiset(kept) == multiset(given) && Ascending(kept)
  }

  lemma {:induction false} SortedHead(a: seq<Entry>, b: seq<Entry>)
    requires multiset(a) == multiset(b) && Ascending(a) && a != []
    ensures b != [] && b[0] in a && !Before(b[0], a[0])
  {
    hide TextLess;
    assert a[0] in multiset(b);
    assert b[0] in multiset(a);
    var j :| 0 <= j < |a| && a[j] == b[0];
    TextLessOrders(if a[0].Entry? then a[0].id else "", "", "");
  }

  lemma {:induction false} SameTail(a: seq<Entry>, b: seq<Entry>)
    requires multiset(a) == multiset(b) && a != [] && b != [] && a[0] == b[0]
    ensures multiset(a[1..]) == multiset(b[1..])
  {
    assert a == [a[0]] + a[1..] && b == [b[0]] + b[1..];
    assert multiset(a[1..]) == multiset(a) - multiset{a[0]};
    assert multiset(b[1..]) == multiset(b) - multiset{b[0]};
  }

  lemma {:induction false} TailSorted(a: seq<Entry>)
    requires a != []
    ensures Ascending(a) ==> Ascending(a[1..])
    ensures Unambiguous(a) ==> Unambiguous(a[1..])
  {
    hide Before;
  }

  /** Two sorted lists of the same entries are the same list. */
  lemma {:induction false} SortedIsUnique(a: seq<Entry>, b: seq<Entry>)
    requires SortsTo(a, b) && Ascending(a) && Unambiguous(a)
    ensures a == b
    decreases |a|
  {
    hide Before, Ascending;
    if a == [] {
      assert |multiset(b)| == 0;
    } else {
      SortedHead(a, b);
      SortedHead(b, a);
      assert a[0] == b[0];
      SameTail(a, b);
      TailSorted(a);
      TailSorted(b);
      SortedIsUnique(a[1..], b[1..]);
      assert a == [a[0]] + a[1..] && b == [b[0]] + b[1..];
    }
  }

  /** Sorting returns the list as it was given if and only if the list was sorted. */
  lemma {:induction false} KeptIffSorted(given: seq<Entry>, kept: seq<Entry>)
    requires SortsTo(given, kept) && (Ascending(given) ==> Unambiguous(given))
    ensures kept == given <==> Ascending(given)
  {
    if Ascending(given) {
      SortedIsUnique(given, kept);
    }
  }
}
