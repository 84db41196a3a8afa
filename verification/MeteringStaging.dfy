/** Absolute byte counters turned into deltas: the pure part of the durable
    metering consumer, and the ledger of counter incarnations it is measured against. */
module MeteringStaging {
  import opened Common

  const MAX_KEY_BYTES: nat := 256

  /** One attached backend of one connection of one dataplane process. */
  datatype SourceKey = SourceKey(connection: U64, process: U64, backend: U64)

  /** Attribution and last reported counters of a source. */
  datatype Baseline = Baseline(
    backendID: string, clusterName: string, keyspace: string, local: bool, publicEndpoint: bool,
    inbound: U64, outbound: U64, inboundEpoch: U64, outboundEpoch: U64)

  /** One entry of an absolute batch. */
  datatype Snapshot = Snapshot(key: SourceKey, base: Baseline, final: bool)

  /** The dimension that bytes are billed by. */
  datatype Key = Key(keyspace: string, backendID: string, publicEndpoint: bool)

  datatype Totals = Totals(response: U64, cross: U64)

  /** The two meters kept per key. */
  datatype Meter = Response | Cross

  function KeyOf(b: Baseline): Key {
    Key(b.keyspace, b.backendID, b.publicEndpoint)
  }

  /** Bytes are billed apart if and only if keyspace, backend or kind of endpoint differ. */
  lemma {:induction false} KeysTellApart(a: Baseline, b: Baseline)
    ensures KeyOf(a) == KeyOf(b) <==>
            a.keyspace == b.keyspace && a.backendID == b.backendID && a.publicEndpoint == b.publicEndpoint
  {
  }

  // ---------------------------------------------------------------- counters

  /** The counter a source would show if it never wrapped. */
  function Virtual(bytes: U64, epoch: U64): nat {
    epoch * TWO64 + bytes
  }

  /** The growth between two reports of one counter, or None for a regression or a jump. */
  function CounterDelta(previous: U64, previousEpoch: U64, current: U64, currentEpoch: U64, known: bool): Option<U64> {
    if !known then
      if currentEpoch != 0 then None else Some(current)
    else if currentEpoch == previousEpoch then
      if current < previous then None else Some(current - previous)
    else if currentEpoch != WrapAdd(previousEpoch, 1) || previousEpoch == U64_MAX then None
    else if previous == 0 then None
    else
      var delta := U64_MAX - previous + 1;
      if current > U64_MAX - delta then None else Some(delta + current)
  }

  /** A report is accepted exactly when the virtual counter grew by one word or less,
      and the delta is that growth. A new source grows from zero. */
  lemma {:induction false} CounterDeltaIsGrowth(previous: U64, previousEpoch: U64, current: U64, currentEpoch: U64,
      known: bool)
    ensures var growth := Virtual(current, currentEpoch) - if known then Virtual(previous, previousEpoch) else 0;
            var d := CounterDelta(previous, previousEpoch, current, currentEpoch, known);
            && (d.Some? <==> 0 <= growth <= U64_MAX)
            && (d.Some? ==> d.value == growth)
  {
    if known && currentEpoch > previousEpoch + 1 {
      assert currentEpoch * TWO64 >= (previousEpoch + 2) * TWO64;
    } else if known && currentEpoch < previousEpoch {
      assert (currentEpoch + 1) * TWO64 <= previousEpoch * TWO64;
    }
  }

  // ----------------------------------------------------------------- staging

  /** Why a batch, or one snapshot in it, is refused. */
  datatype Refusal =
    | NoProducer | NoSnapshots | TooManySnapshots | Unhealthy | ProducerMismatch
    | SequenceGap | FreshSequence | MixedGenerations | GenerationRegressed
    | UnknownAttribution | KeyTooLong | DuplicateSource | AttributionMutated
    | InboundRegressed | OutboundRegressed | CrossOverflow | AggregateOverflow

  datatype Staging = Staging(
    sources: map<SourceKey, Baseline>, totals: map<Key, Totals>, pending: map<Key, Totals>)

  predicate Attributed(s: Snapshot) {
    && s.key.connection != 0 && s.key.process != 0 && s.key.backend != 0
    && s.base.backendID != "" && s.base.keyspace != ""
  }

  predicate KeysBounded(b: Baseline) {
    && |b.backendID| <= MAX_KEY_BYTES
    && |b.clusterName| <= MAX_KEY_BYTES
    && |b.keyspace| <= MAX_KEY_BYTES
  }

  predicate SameAttribution(a: Baseline, b: Baseline) {
    && a.backendID == b.backendID && a.clusterName == b.clusterName && a.keyspace == b.keyspace
    && a.local == b.local && a.publicEndpoint == b.publicEndpoint
  }

  function Lookup(m: map<Key, Totals>, k: Key): Totals {
    if k in m then m[k] else Totals(0, 0)
  }

  /** Neither aggregate overflows. */
  predicate Fits(m: map<Key, Totals>, k: Key, d: Totals) {
    var t := Lookup(m, k);
    !(t.response > U64_MAX - d.response || t.cross > U64_MAX - d.cross)
  }

  function AddTotals(m: map<Key, Totals>, k: Key, d: Totals): map<Key, Totals>
    requires Fits(m, k, d)
  {
    var t := Lookup(m, k);
    m[k := Totals(t.response + d.response, t.cross + d.cross)]
  }

  function AddTotalsSaturating(m: map<Key, Totals>, k: Key, d: Totals): map<Key, Totals> {
    var t := Lookup(m, k);
    m[k := Totals(SaturatingAdd(t.response, d.response), SaturatingAdd(t.cross, d.cross))]
  }

  /** The deltas one snapshot adds: response bytes, and cross-location bytes unless local. */
  function SnapshotDelta(sources: map<SourceKey, Baseline>, s: Snapshot): Result<Totals, Refusal> {
    var known := s.key in sources;
    var prior := if known then sources[s.key]
                 else s.base.(inbound := 0, outbound := 0, inboundEpoch := 0, outboundEpoch := 0);
    if !SameAttribution(prior, s.base) then Err(AttributionMutated)
    else
      var inbound := CounterDelta(prior.inbound, prior.inboundEpoch, s.base.inbound, s.base.inboundEpoch, known);
      var outbound := CounterDelta(prior.outbound, prior.outboundEpoch, s.base.outbound, s.base.outboundEpoch, known);
      if inbound.None? then Err(InboundRegressed)
      else if outbound.None? then Err(OutboundRegressed)
      else if s.base.local then Ok(Totals(inbound.value, 0))
      else
        var cross := WrapAdd(inbound.value, outbound.value);
        if cross < inbound.value then Err(CrossOverflow) else Ok(Totals(inbound.value, cross))
  }

  function StageOne(st: Staging, seen: set<SourceKey>, s: Snapshot): Result<Staging, Refusal> {
    if !Attributed(s) then Err(UnknownAttribution)
    else if !KeysBounded(s.base) then Err(KeyTooLong)
    else if s.key in seen then Err(DuplicateSource)
    else
      match SnapshotDelta(st.sources, s)
      case Err(e) => Err(e)
      case Ok(d) =>
        var k := KeyOf(s.base);
        if !Fits(st.pending, k, d) then Err(AggregateOverflow)
        else
          var sources := if s.final then st.sources - {s.key} else st.sources[s.key := s.base];
          Ok(Staging(sources, AddTotalsSaturating(st.totals, k, d), AddTotals(st.pending, k, d)))
  }

  /** The whole batch, or the first refusal. */
  function StageAll(st: Staging, seen: set<SourceKey>, batch: seq<Snapshot>): Result<Staging, Refusal>
    decreases |batch|
  {
    if batch == [] then Ok(st)
    else
      match StageOne(st, seen, batch[0])
      case Err(e) => Err(e)
      case Ok(next) => StageAll(next, seen + {batch[0].key}, batch[1..])
  }

  /** Sources of earlier dataplane processes are dropped when a later process reports. */
  function RetireSources(sources: map<SourceKey, Baseline>, current: U64, process: U64): map<SourceKey, Baseline> {
    if process > current then map k | k in sources && k.process >= process :: sources[k] else sources
  }

  // ------------------------------------------------------------------ ledger

  /** Every counter incarnation ever reported, in order of first report, with its last
      report; `live` points at the incarnations that may still grow. */
  datatype Ledger = Ledger(entries: seq<Baseline>, live: map<SourceKey, nat>)

  const EMPTY_LEDGER := Ledger([], map[])

  ghost predicate LedgerValid(l: Ledger) {
    && (forall k :: k in l.live ==> l.live[k] < |l.entries|)
    && (forall j, k :: j in l.live && k in l.live && j != k ==> l.live[j] != l.live[k])
  }

  /** The ledger's live incarnations are the consumer's sources. */
  ghost predicate Tracks(l: Ledger, sources: map<SourceKey, Baseline>) {
    && LedgerValid(l)
    && l.live.Keys == sources.Keys
    && (forall k :: k in sources ==> l.entries[l.live[k]] == sources[k])
  }

  ghost function RecordOne(l: Ledger, s: Snapshot): Ledger
    requires LedgerValid(l)
  {
    var noted := if s.key in l.live then l.(entries := l.entries[l.live[s.key] := s.base])
                 else Ledger(l.entries + [s.base], l.live[s.key := |l.entries|]);
    if s.final then noted.(live := noted.live - {s.key}) else noted
  }

  lemma {:induction false} RecordOneValid(l: Ledger, s: Snapshot)
    requires LedgerValid(l)
    ensures LedgerValid(RecordOne(l, s))
  {
  }

  ghost function RecordAll(l: Ledger, batch: seq<Snapshot>): (r: Ledger)
    requires LedgerValid(l)
    ensures LedgerValid(r)
    decreases |batch|
  {
    if batch == [] then l else RecordOneValid(l, batch[0]); RecordAll(RecordOne(l, batch[0]), batch[1..])
  }

  ghost function RetireLedger(l: Ledger, current: U64, process: U64): Ledger {
    if process > current then l.(live := map k | k in l.live && k.process >= process :: l.live[k]) else l
  }

  /** What one incarnation has carried in total. */
  function Carried(b: Baseline, c: Meter): nat {
    match c
    case Response => Virtual(b.inbound, b.inboundEpoch)
    case Cross => if b.local then 0 else Virtual(b.inbound, b.inboundEpoch) + Virtual(b.outbound, b.outboundEpoch)
  }

  function Contribution(b: Baseline, k: Key, c: Meter): nat {
    if KeyOf(b) == k then Carried(b, c) else 0
  }

  /** The exact volume of a key: the sum over all incarnations, live and retired. */
  function Exact(entries: seq<Baseline>, k: Key, c: Meter): nat {
    if entries == [] then 0
    else Exact(entries[..|entries| - 1], k, c) + Contribution(entries[|entries| - 1], k, c)
  }

  function Reading(t: Totals, c: Meter): U64 {
    match c
    case Response => t.response
    case Cross => t.cross
  }

  function Held(m: map<Key, Totals>, k: Key, c: Meter): U64 {
    Reading(Lookup(m, k), c)
  }

  lemma {:induction false} ExactUpdate(entries: seq<Baseline>, i: nat, b: Baseline, k: Key, c: Meter)
    requires i < |entries|
    ensures Exact(entries[i := b], k, c) + Contribution(entries[i], k, c) ==
        Exact(entries, k, c) + Contribution(b, k, c)
  {
    var n := |entries| - 1;
    if i == n {
      assert entries[i := b][..n] == entries[..n];
    } else {
      assert entries[i := b][..n] == entries[..n][i := b];
      ExactUpdate(entries[..n], i, b, k, c);
    }
  }

  lemma {:induction false} ExactAppend(entries: seq<Baseline>, b: Baseline, k: Key, c: Meter)
    ensures Exact(entries + [b], k, c) == Exact(entries, k, c) + Contribution(b, k, c)
  {
    assert (entries + [b])[..|entries|] == entries;
  }

  // --------------------------------------------- staging agrees with the ledger

  /** What staging keeps true of the ledger for one meter of one key. */
  ghost predicate Agrees(before: Staging, after: Staging, l: Ledger, m: Ledger, k: Key, c: Meter) {
    && Held(after.pending, k, c) + Exact(l.entries, k, c) == Held(before.pending, k, c) + Exact(m.entries, k, c)
    && (Held(before.totals, k, c) == Min(Exact(l.entries, k, c), U64_MAX) ==>
          Held(after.totals, k, c) == Min(Exact(m.entries, k, c), U64_MAX))
  }

  function Share(kb: Key, d: Totals, k: Key, c: Meter): U64 {
    if kb == k then Reading(d, c) else 0
  }

  /** The delta of an accepted snapshot is the growth of its incarnation. */
  lemma {:induction false} SnapshotDeltaIsGrowth(st: Staging, l: Ledger, s: Snapshot, k: Key, c: Meter)
    requires Tracks(l, st.sources)
    requires SnapshotDelta(st.sources, s).Ok?
    ensures Exact(RecordOne(l, s).entries, k, c)
         == Exact(l.entries, k, c) + Share(KeyOf(s.base), SnapshotDelta(st.sources, s).value, k, c)
  {
    if s.key in st.sources {
      var prior := st.sources[s.key];
      CounterDeltaIsGrowth(prior.inbound, prior.inboundEpoch, s.base.inbound, s.base.inboundEpoch, true);
      CounterDeltaIsGrowth(prior.outbound, prior.outboundEpoch, s.base.outbound, s.base.outboundEpoch, true);
      ExactUpdate(l.entries, l.live[s.key], s.base, k, c);
    } else {
      CounterDeltaIsGrowth(0, 0, s.base.inbound, s.base.inboundEpoch, false);
      CounterDeltaIsGrowth(0, 0, s.base.outbound, s.base.outboundEpoch, false);
      ExactAppend(l.entries, s.base, k, c);
    }
  }

  lemma {:induction false} RecordOneTracks(l: Ledger, sources: map<SourceKey, Baseline>, s: Snapshot)
    requires Tracks(l, sources)
    ensures Tracks(RecordOne(l, s), if s.final then sources - {s.key} else sources[s.key := s.base])
  {
    RecordOneValid(l, s);
    var m, after := RecordOne(l, s), if s.final then sources - {s.key} else sources[s.key := s.base];
    assert m.live.Keys == after.Keys;
    forall k | k in after
      ensures m.entries[m.live[k]] == after[k]
    {
      if k != s.key {
        assert k in sources && m.live[k] == l.live[k] < |l.entries|;
      }
    }
  }

  lemma {:induction false} AddTotalsMoves(m: map<Key, Totals>, kb: Key, d: Totals, k: Key, c: Meter)
    requires Fits(m, kb, d)
    ensures Held(AddTotals(m, kb, d), k, c) == Held(m, k, c) + Share(kb, d, k, c)
  {
  }

  /** Saturating addition keeps a total at the capped exact volume. */
  lemma {:induction false} AddTotalsSaturatingMoves(m: map<Key, Totals>, kb: Key, d: Totals, before: nat, k: Key,
      c: Meter)
    requires Held(m, k, c) == Min(before, U64_MAX)
    ensures Held(AddTotalsSaturating(m, kb, d), k, c) == Min(before + Share(kb, d, k, c), U64_MAX)
  {
  }

  lemma {:induction false} StageOneAgrees(st: Staging, seen: set<SourceKey>, l: Ledger, s: Snapshot, k: Key, c: Meter)
    requires Tracks(l, st.sources)
    requires StageOne(st, seen, s).Ok?
    ensures Agrees(st, StageOne(st, seen, s).value, l, RecordOne(l, s), k, c)
    ensures Tracks(RecordOne(l, s), StageOne(st, seen, s).value.sources)
  {
    hide AddTotals, AddTotalsSaturating, SnapshotDelta, Tracks, Share;
    RecordOneTracks(l, st.sources, s);
    SnapshotDeltaIsGrowth(st, l, s, k, c);
    var kb, d := KeyOf(s.base), SnapshotDelta(st.sources, s).value;
    AddTotalsMoves(st.pending, kb, d, k, c);
    if Held(st.totals, k, c) == Min(Exact(l.entries, k, c), U64_MAX) {
      AddTotalsSaturatingMoves(st.totals, kb, d, Exact(l.entries, k, c), k, c);
    }
  }

  /** Staging a batch moves exactly the batch's growth into pending, keeps every total at
      the capped exact volume, and keeps the sources tracked. */
  lemma {:induction false} StageAllAgrees(st: Staging, seen: set<SourceKey>, l: Ledger, batch: seq<Snapshot>, k: Key,
      c: Meter)
    requires Tracks(l, st.sources)
    requires StageAll(st, seen, batch).Ok?
    ensures Tracks(RecordAll(l, batch), StageAll(st, seen, batch).value.sources)
    ensures Agrees(st, StageAll(st, seen, batch).value, l, RecordAll(l, batch), k, c)
    decreases |batch|
  {
    if batch != [] {
      StageOneAgrees(st, seen, l, batch[0], k, c);
      RecordOneTracks(l, st.sources, batch[0]);
      var next, noted := StageOne(st, seen, batch[0]).value, RecordOne(l, batch[0]);
      StageAllAgrees(next, seen + {batch[0].key}, noted, batch[1..], k, c);
    }
  }

  /** Retiring a process changes no exact volume: its incarnations stay in the ledger. */
  lemma {:induction false} RetireTracks(l: Ledger, sources: map<SourceKey, Baseline>, current: U64, process: U64)
    requires Tracks(l, sources)
    ensures Tracks(RetireLedger(l, current, process), RetireSources(sources, current, process))
    ensures RetireLedger(l, current, process).entries == l.entries
  {
  }

  // ------------------------------------------------------ well-formed contents

  ghost predicate SourcesWellFormed(sources: map<SourceKey, Baseline>, generation: U64) {
    forall k :: k in sources ==>
      && Attributed(Snapshot(k, sources[k], false)) && KeysBounded(sources[k])
      && k.process <= generation
  }

  predicate KeyWellFormed(k: Key) {
    k.keyspace != "" && k.backendID != "" && |k.keyspace| <= MAX_KEY_BYTES && |k.backendID| <= MAX_KEY_BYTES
  }

  ghost predicate TotalsWellFormed(m: map<Key, Totals>) {
    forall k :: k in m ==> KeyWellFormed(k)
  }

  ghost predicate StagingWellFormed(st: Staging, generation: U64) {
    SourcesWellFormed(st.sources, generation) && TotalsWellFormed(st.totals) && TotalsWellFormed(st.pending)
  }

  /** Staging keeps the contents well formed and never leaves pending empty. */
  lemma {:induction false} StageAllWellFormed(st: Staging, seen: set<SourceKey>, batch: seq<Snapshot>, generation: U64)
    requires StagingWellFormed(st, generation)
    requires forall s :: s in batch ==> s.key.process == generation
    requires StageAll(st, seen, batch).Ok?
    ensures StagingWellFormed(StageAll(st, seen, batch).value, generation)
    ensures batch != [] || st.pending != map[] ==> StageAll(st, seen, batch).value.pending != map[]
    ensures batch != [] ==> generation != 0
    decreases |batch|
  {
    if batch != [] {
      assert batch[0] in batch;
      var next := StageOne(st, seen, batch[0]).value;
      assert KeyOf(batch[0].base) in next.pending;
      assert StagingWellFormed(next, generation);
      StageAllWellFormed(next, seen + {batch[0].key}, batch[1..], generation);
    }
  }
}
