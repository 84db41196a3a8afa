/** The consumer's state file: what is written, and what is accepted back. */
module MeteringDisk {
  import opened Common
  import opened Listings
  import opened MeteringStaging

  const STATE_VERSION: int := 1
  const PRODUCER_ID_BYTES: nat := 32

  /** What the consumer keeps between batches. */
  datatype State = State(producerID: string, lastApplied: U64, generation: U64, books: Staging)

  const FRESH := State("", 0, 0, Staging(map[], map[], map[]))

  /** The content of the state file. */
  datatype Image = Image(
    version: int, producerID: string, lastApplied: U64, generation: U64,
    sources: seq<(SourceKey, Baseline)>, totals: seq<(Key, Totals)>, pending: seq<(Key, Totals)>)

  predicate HexDigit(c: char) {
    '0' <= c <= '9' || 'a' <= c <= 'f'
  }

  predicate ValidProducerID(id: string) {
    |id| == PRODUCER_ID_BYTES && forall i :: 0 <= i < |id| ==> HexDigit(id[i])
  }

  ghost predicate WellFormed(st: State) {
    && (st.producerID == "" <==> st.lastApplied == 0)
    && (st.producerID == "" <==> st.generation == 0)
    && (st.producerID != "" ==> ValidProducerID(st.producerID))
    && (st.producerID == "" ==> st.books == FRESH.books)
    && StagingWellFormed(st.books, st.generation)
  }

  /** The image is one a persist of this state may write. */
  ghost predicate Encodes(img: Image, st: State) {
    && img.version == STATE_VERSION
    && img.producerID == st.producerID && img.lastApplied == st.lastApplied && img.generation == st.generation
    && Lists(img.sources, st.books.sources)
    && Lists(img.totals, st.books.totals)
    && Lists(img.pending, st.books.pending)
  }

  predicate SourceValid(e: (SourceKey, Baseline), generation: U64) {
    && Attributed(Snapshot(e.0, e.1, false))
    && e.0.process <= generation
    && KeysBounded(e.1)
  }

  ghost predicate TotalsListValid(s: seq<(Key, Totals)>) {
    DistinctKeys(s) && forall i :: 0 <= i < |s| ==> KeyWellFormed(s[i].0)
  }

  ghost predicate ImageValid(img: Image) {
    && img.version == STATE_VERSION
    && DistinctKeys(img.sources)
    && (forall i :: 0 <= i < |img.sources| ==> SourceValid(img.sources[i], img.generation))
    && (img.producerID == "" <==> img.lastApplied == 0)
    && (img.producerID != "" ==> ValidProducerID(img.producerID))
    && (img.producerID == "" <==> img.generation == 0)
    && (img.producerID == "" ==> img.sources == [] && img.totals == [] && img.pending == [])
    && TotalsListValid(img.totals)
    && TotalsListValid(img.pending)
  }

  function Decode(img: Image): State {
    State(img.producerID, img.lastApplied, img.generation,
          Staging(AsMap(img.sources), AsMap(img.totals), AsMap(img.pending)))
  }

  /** Every image a persist can write is accepted, and reproduces the persisted state. */
  lemma {:induction false} LoadInvertsPersist(img: Image, st: State)
    requires Encodes(img, st) && WellFormed(st)
    ensures ImageValid(img) && Decode(img) == st
  {
    AsMapInverts(img.sources, st.books.sources);
    AsMapInverts(img.totals, st.books.totals);
    AsMapInverts(img.pending, st.books.pending);
    ListedNonempty(img.sources, st.books.sources);
    ListedNonempty(img.totals, st.books.totals);
    ListedNonempty(img.pending, st.books.pending);
  }

  /** Every accepted image yields a well-formed state that it encodes. */
  lemma {:induction false} LoadedIsWellFormed(img: Image)
    requires ImageValid(img)
    ensures WellFormed(Decode(img)) && Encodes(img, Decode(img))
  {
    AsMapLists(img.sources);
    AsMapLists(img.totals);
    AsMapLists(img.pending);
    TotalsListWellFormed(img.totals, AsMap(img.totals));
    TotalsListWellFormed(img.pending, AsMap(img.pending));
    forall k | k in AsMap(img.sources)
      ensures SourceValid((k, AsMap(img.sources)[k]), img.generation)
    {
      var i :| 0 <= i < |img.sources| && img.sources[i].0 == k;
    }
  }

  lemma {:induction false} TotalsListWellFormed(s: seq<(Key, Totals)>, m: map<Key, Totals>)
    requires TotalsListValid(s) && Lists(s, m)
    ensures TotalsWellFormed(m)
  {
    forall k | k in m
      ensures KeyWellFormed(k)
    {
      var i :| 0 <= i < |s| && s[i].0 == k;
    }
  }

  // ----------------------------------------------------------------- ordering

  predicate SourceLess(a: SourceKey, b: SourceKey) {
    if a.connection != b.connection then a.connection < b.connection
    else if a.process != b.process then a.process < b.process
    else a.backend < b.backend
  }

  predicate KeyLess(a: Key, b: Key) {
    if a.keyspace != b.keyspace then TextLess(a.keyspace, b.keyspace)
    else if a.backendID != b.backendID then TextLess(a.backendID, b.backendID)
    else !a.publicEndpoint && b.publicEndpoint
  }

  lemma {:induction false} SourceLessTotal()
    ensures StrictTotal(SourceLess)
  {
  }

  lemma {:induction false} KeyLessTotal()
    ensures StrictTotal(KeyLess)
  {
    forall a: Key
      ensures !KeyLess(a, a)
    {
      TextLessOrders(a.keyspace, a.keyspace, a.keyspace);
    }
    forall a: Key, b: Key
      ensures a == b || KeyLess(a, b) || KeyLess(b, a)
    {
      TextLessOrders(a.keyspace, b.keyspace, b.keyspace);
      TextLessOrders(a.backendID, b.backendID, b.backendID);
    }
    forall a: Key, b: Key, c: Key | KeyLess(a, b) && KeyLess(b, c)
      ensures KeyLess(a, c)
    {
      KeyLessTransitive(a, b, c);
    }
  }

  lemma {:induction false} KeyLessTransitive(a: Key, b: Key, c: Key)
    requires KeyLess(a, b) && KeyLess(b, c)
    ensures KeyLess(a, c)
  {
    TextLessOrders(a.keyspace, b.keyspace, c.keyspace);
    TextLessOrders(b.keyspace, a.keyspace, a.keyspace);
    TextLessOrders(a.keyspace, b.keyspace, a.keyspace);
    TextLessOrders(a.backendID, b.backendID, c.backendID);
    TextLessOrders(a.backendID, b.backendID, a.backendID);
  }

  // -------------------------------------------------------------------- loops

  /** Builds the state file's content. */
  method PersistImage(st: State) returns (img: Image)
    ensures Encodes(img, st)
    ensures Sorted(img.sources, SourceLess) && Sorted(img.totals, KeyLess) && Sorted(img.pending, KeyLess)
  {
    SourceLessTotal();
    KeyLessTotal();
    var sources := Enumerate(st.books.sources, SourceLess);
    var totals := Enumerate(st.books.totals, KeyLess);
    var pending := Enumerate(st.books.pending, KeyLess);
    img := Image(STATE_VERSION, st.producerID, st.lastApplied, st.generation, sources, totals, pending);
  }

  lemma {:induction false} AsMapStep<K, V>(s: seq<(K, V)>, n: nat)
    requires n < |s|
    ensures AsMap(s[..n + 1]) == AsMap(s[..n])[s[n].0 := s[n].1]
    ensures DistinctKeys(s[..n]) ==> (DistinctKeys(s[..n + 1]) <==> s[n].0 !in AsMap(s[..n]))
    ensures DistinctKeys(s) ==> DistinctKeys(s[..n])
  {
    assert s[..n + 1][..n] == s[..n];
    if DistinctKeys(s[..n]) {
      AsMapLists(s[..n]);
    }
  }

  method TotalsFromDisk(s: seq<(Key, Totals)>) returns (r: Option<map<Key, Totals>>)
    ensures r.Some? <==> TotalsListValid(s)
    ensures r.Some? ==> r.value == AsMap(s)
  {
    var m: map<Key, Totals> := map[];
    for n := 0 to |s|
      invariant m == AsMap(s[..n]) && TotalsListValid(s[..n])
    {
      AsMapStep(s, n);
      if !KeyWellFormed(s[n].0) || s[n].0 in m {
        assert s[..n + 1][n] == s[n];
        assert !TotalsListValid(s[..n + 1]);
        TotalsListPrefix(s, n + 1);
        return None;
      }
      m := m[s[n].0 := s[n].1];
    }
    assert s[..|s|] == s;
    r := Some(m);
  }

  lemma {:induction false} TotalsListPrefix(s: seq<(Key, Totals)>, n: nat)
    requires n <= |s| && !TotalsListValid(s[..n])
    ensures !TotalsListValid(s)
  {
  }

  ghost predicate SourcesListValid(s: seq<(SourceKey, Baseline)>, generation: U64) {
    DistinctKeys(s) && forall i :: 0 <= i < |s| ==> SourceValid(s[i], generation)
  }

  method SourcesFromDisk(s: seq<(SourceKey, Baseline)>, generation: U64) returns (r: Option<map<SourceKey, Baseline>>)
    ensures r.Some? <==> SourcesListValid(s, generation)
    ensures r.Some? ==> r.value == AsMap(s)
  {
    var m: map<SourceKey, Baseline> := map[];
    for n := 0 to |s|
      invariant m == AsMap(s[..n]) && SourcesListValid(s[..n], generation)
    {
      AsMapStep(s, n);
      if !SourceValid(s[n], generation) || s[n].0 in m {
        assert s[..n + 1][n] == s[n];
        assert !SourcesListValid(s[..n + 1], generation);
        SourcesListPrefix(s, n + 1, generation);
        return None;
      }
      m := m[s[n].0 := s[n].1];
    }
    assert s[..|s|] == s;
    r := Some(m);
  }

  lemma {:induction false} SourcesListPrefix(s: seq<(SourceKey, Baseline)>, n: nat, generation: U64)
    requires n <= |s| && !SourcesListValid(s[..n], generation)
    ensures !SourcesListValid(s, generation)
  {
  }

  /** Accepts exactly the valid images, and decodes them. */
  method LoadState(img: Image) returns (r: Option<State>)
    ensures r.Some? <==> ImageValid(img)
    ensures r.Some? ==> r.value == Decode(img)
  {
    if img.version != STATE_VERSION { return None; }
    var sources := SourcesFromDisk(img.sources, img.generation);
    if sources.None? { return None; }
    if (img.producerID == "") != (img.lastApplied == 0) { return None; }
    if img.producerID != "" && !ValidProducerID(img.producerID) { return None; }
    if (img.producerID == "") != (img.generation == 0) { return None; }
    if img.producerID == "" && (|img.sources| != 0 || |img.totals| != 0 || |img.pending| != 0) { return None; }
    var totals := TotalsFromDisk(img.totals);
    if totals.None? { return None; }
    var pending := TotalsFromDisk(img.pending);
    if pending.None? { return None; }
    r := Some(State(img.producerID, img.lastApplied, img.generation,
        Staging(sources.value, totals.value, pending.value)));
  }
}
