/** Which batches can be staged, said of the batch alone: no order of processing, no word arithmetic. */
module MeteringAdmission {
  import opened Common
  import opened MeteringStaging

  type Sources = map<SourceKey, Baseline>

  /** What the source has received, and sent, since its last report; a new source starts at zero. */
  function Received(sources: Sources, s: Snapshot): int {
    Virtual(s.base.inbound, s.base.inboundEpoch)
      - if s.key in sources then Virtual(sources[s.key].inbound, sources[s.key].inboundEpoch) else 0
  }

  function Sent(sources: Sources, s: Snapshot): int {
    Virtual(s.base.outbound, s.base.outboundEpoch)
      - if s.key in sources then Virtual(sources[s.key].outbound, sources[s.key].outboundEpoch) else 0
  }

  /** What a report adds to one meter of one key. */
  function Adds(sources: Sources, s: Snapshot, k: Key, c: Meter): int {
    if KeyOf(s.base) != k then 0
    else
      match c
      case Response => Received(sources, s)
      case Cross => if s.base.local then 0 else Received(sources, s) + Sent(sources, s)
  }

  /** A report that can be told apart and attributed, of a source whose attribution stays, with
      counters that grew by no more than one word. */
  predicate Sound(sources: Sources, s: Snapshot) {
    && Attributed(s) && KeysBounded(s.base)
    && (s.key in sources ==> SameAttribution(sources[s.key], s.base))
    && 0 <= Received(sources, s) <= U64_MAX && 0 <= Sent(sources, s) <= U64_MAX
    && (s.base.local || Received(sources, s) + Sent(sources, s) <= U64_MAX)
  }

  lemma {:induction false} DeltaIff(sources: Sources, s: Snapshot)
    requires Attributed(s) && KeysBounded(s.base)
    ensures SnapshotDelta(sources, s).Ok? <==> Sound(sources, s)
    ensures Sound(sources, s) ==>
              forall k, c :: Share(KeyOf(s.base), SnapshotDelta(sources, s).value, k, c) == Adds(sources, s, k, c)
  {
    hide CounterDelta;
    if s.key in sources {
      var prior := sources[s.key];
      CounterDeltaIsGrowth(prior.inbound, prior.inboundEpoch, s.base.inbound, s.base.inboundEpoch, true);
      CounterDeltaIsGrowth(prior.outbound, prior.outboundEpoch, s.base.outbound, s.base.outboundEpoch, true);
    } else {
      CounterDeltaIsGrowth(0, 0, s.base.inbound, s.base.inboundEpoch, false);
      CounterDeltaIsGrowth(0, 0, s.base.outbound, s.base.outboundEpoch, false);
    }
  }

  /** What a batch adds to one meter of one key. */
  function AddsAll(sources: Sources, batch: seq<Snapshot>, k: Key, c: Meter): int {
    if batch == [] then 0 else Adds(sources, batch[0], k, c) + AddsAll(sources, batch[1..], k, c)
  }

  predicate AllSound(sources: Sources, batch: seq<Snapshot>) {
    forall i :: 0 <= i < |batch| ==> Sound(sources, batch[i])
  }

  /** No source reports twice. */
  predicate Distinct(seen: set<SourceKey>, batch: seq<Snapshot>) {
    && (forall i :: 0 <= i < |batch| ==> batch[i].key !in seen)
    && (forall i, j :: 0 <= i < j < |batch| ==> batch[i].key != batch[j].key)
  }

  /** No aggregate overflows its word. */
  ghost predicate Room(pending: map<Key, Totals>, sources: Sources, batch: seq<Snapshot>) {
    forall k, c :: Held(pending, k, c) + AddsAll(sources, batch, k, c) <= U64_MAX
  }

  ghost predicate Stageable(st: Staging, seen: set<SourceKey>, batch: seq<Snapshot>) {
    AllSound(st.sources, batch) && Distinct(seen, batch) && Room(st.pending, st.sources, batch)
  }

  lemma {:induction false} AddsAllNatural(sources: Sources, batch: seq<Snapshot>, k: Key, c: Meter)
    requires AllSound(sources, batch)
    ensures AddsAll(sources, batch, k, c) >= 0
    decreases |batch|
  {
    if batch != [] {
      assert Sound(sources, batch[0]);
      assert forall i :: 0 <= i < |batch[1..]| ==> batch[1..][i] == batch[i + 1];
      AddsAllNatural(sources, batch[1..], k, c);
    }
  }

  /** A report of another source is judged as before. */
  lemma {:induction false} SameForOthers(a: Sources, b: Sources, batch: seq<Snapshot>, k: Key, c: Meter)
    requires forall i :: 0 <= i < |batch| ==>
               (batch[i].key in a <==> batch[i].key in b) && (batch[i].key in a ==> a[batch[i].key] == b[batch[i].key])
    ensures AllSound(a, batch) <==> AllSound(b, batch)
    ensures AddsAll(a, batch, k, c) == AddsAll(b, batch, k, c)
    decreases |batch|
  {
    hide Virtual, SameAttribution, KeyOf;
    forall i | 0 <= i < |batch|
      ensures Sound(a, batch[i]) <==> Sound(b, batch[i])
    {
    }
    if batch != [] {
      assert forall i :: 0 <= i < |batch[1..]| ==> batch[1..][i] == batch[i + 1];
      SameForOthers(a, b, batch[1..], k, c);
    }
  }

  lemma {:induction false} FitsIff(m: map<Key, Totals>, k: Key, d: Totals)
    ensures Fits(m, k, d) <==> forall j, c :: Held(m, j, c) + Share(k, d, j, c) <= U64_MAX
  {
    if forall j, c :: Held(m, j, c) + Share(k, d, j, c) <= U64_MAX {
      assert Held(m, k, Response) + Share(k, d, k, Response) <= U64_MAX;
      assert Held(m, k, Cross) + Share(k, d, k, Cross) <= U64_MAX;
    }
  }

  /** One report is staged if and only if it is sound, new to the batch, and fits; then it adds what
      it grew by. */
  lemma {:induction false} StageOneIff(st: Staging, seen: set<SourceKey>, s: Snapshot)
    ensures StageOne(st, seen, s).Ok? <==>
            && Sound(st.sources, s) && s.key !in seen
            && forall k, c :: Held(st.pending, k, c) + Adds(st.sources, s, k, c) <= U64_MAX
    ensures StageOne(st, seen, s).Ok? ==>
              forall k, c :: Held(StageOne(st, seen, s).value.pending, k, c)
                             == Held(st.pending, k, c) + Adds(st.sources, s, k, c)
  {
    hide SnapshotDelta, Fits, AddTotals, Held, Share, Adds, AddTotalsSaturating;
    if Attributed(s) && KeysBounded(s.base) {
      DeltaIff(st.sources, s);
      if Sound(st.sources, s) {
        var k, d := KeyOf(s.base), SnapshotDelta(st.sources, s).value;
        FitsIff(st.pending, k, d);
        if Fits(st.pending, k, d) {
          forall j, c
            ensures Held(AddTotals(st.pending, k, d), j, c) == Held(st.pending, j, c) + Adds(st.sources, s, j, c)
          {
            AddTotalsMoves(st.pending, k, d, j, c);
          }
        }
      }
    }
  }

  lemma {:induction false} DistinctTail(seen: set<SourceKey>, batch: seq<Snapshot>)
    requires batch != []
    ensures Distinct(seen, batch) <==> batch[0].key !in seen && Distinct(seen + {batch[0].key}, batch[1..])
  {
    var tail := batch[1..];
    assert forall i :: 0 <= i < |tail| ==> tail[i] == batch[i + 1];
    if batch[0].key !in seen && Distinct(seen + {batch[0].key}, tail) {
      forall i | 0 <= i < |batch|
        ensures batch[i].key !in seen
      {
        assert i > 0 ==> batch[i] == tail[i - 1];
      }
      forall i, j | 0 <= i < j < |batch|
        ensures batch[i].key != batch[j].key
      {
        assert batch[j] == tail[j - 1] && (i > 0 ==> batch[i] == tail[i - 1]);
      }
    }
  }

  lemma {:induction false} SoundTail(sources: Sources, batch: seq<Snapshot>)
    requires batch != []
    ensures AllSound(sources, batch) <==> Sound(sources, batch[0]) && AllSound(sources, batch[1..])
  {
    hide Sound;
    var tail := batch[1..];
    assert forall i :: 0 <= i < |tail| ==> tail[i] == batch[i + 1];
    if Sound(sources, batch[0]) && AllSound(sources, tail) {
      forall i | 0 <= i < |batch|
        ensures Sound(sources, batch[i])
      {
        assert i > 0 ==> batch[i] == tail[i - 1];
      }
    }
  }

  /** A report whose successors can all be staged after it leaves room for itself. */
  lemma {:induction false} RoomHead(pending: map<Key, Totals>, sources: Sources, batch: seq<Snapshot>)
    requires batch != [] && AllSound(sources, batch[1..]) && Room(pending, sources, batch)
    ensures forall k, c :: Held(pending, k, c) + Adds(sources, batch[0], k, c) <= U64_MAX
  {
    hide Held, Adds, Sound;
    forall k, c
      ensures Held(pending, k, c) + Adds(sources, batch[0], k, c) <= U64_MAX
    {
      AddsAllNatural(sources, batch[1..], k, c);
      assert Held(pending, k, c) + AddsAll(sources, batch, k, c) <= U64_MAX;
    }
  }

  /** What is left to stage after the first report is what was left before it. */
  lemma {:induction false} RestIsStageable(st: Staging, seen: set<SourceKey>, batch: seq<Snapshot>)
    requires batch != [] && StageOne(st, seen, batch[0]).Ok?
    ensures Stageable(StageOne(st, seen, batch[0]).value, seen + {batch[0].key}, batch[1..]) <==>
            Stageable(st, seen, batch)
  {
    hide Held, Adds, Sound, AllSound, Distinct;
    var s, next, tail := batch[0], StageOne(st, seen, batch[0]).value, batch[1..];
    StageOneIff(st, seen, s);
    DistinctTail(seen, batch);
    SoundTail(st.sources, batch);
    if Distinct(seen + {s.key}, tail) {
      OthersUntouched(st, seen, s, tail);
      forall k, c
        ensures AllSound(st.sources, tail) <==> AllSound(next.sources, tail)
        ensures Held(next.pending, k, c) + AddsAll(next.sources, tail, k, c)
             == Held(st.pending, k, c) + AddsAll(st.sources, batch, k, c)
      {
        SameForOthers(st.sources, next.sources, tail, k, c);
      }
      assert AllSound(st.sources, tail) <==> AllSound(next.sources, tail) by {
        SameForOthers(st.sources, next.sources, tail, Key("", "", false), Response);
      }
      RoomMoves(st, next, batch, tail);
    }
  }

  lemma {:induction false} RoomMoves(st: Staging, next: Staging, batch: seq<Snapshot>, tail: seq<Snapshot>)
    requires forall k, c :: Held(next.pending, k, c) + AddsAll(next.sources, tail, k, c)
                            == Held(st.pending, k, c) + AddsAll(st.sources, batch, k, c)
    ensures Room(next.pending, next.sources, tail) <==> Room(st.pending, st.sources, batch)
  {
    hide Held, AddsAll;
  }

  lemma {:induction false} OthersUntouched(st: Staging, seen: set<SourceKey>, s: Snapshot, tail: seq<Snapshot>)
    requires StageOne(st, seen, s).Ok? && Distinct(seen + {s.key}, tail)
    ensures var a, b := st.sources, StageOne(st, seen, s).value.sources;
            forall i :: 0 <= i < |tail| ==>
              (tail[i].key in a <==> tail[i].key in b) && (tail[i].key in a ==> a[tail[i].key] == b[tail[i].key])
  {
    hide SnapshotDelta, Fits;
  }

  /** A batch is staged if and only if every report in it is sound, no source reports twice, and no
      aggregate overflows. */
  lemma {:induction false} StageAllIff(st: Staging, seen: set<SourceKey>, batch: seq<Snapshot>)
    ensures StageAll(st, seen, batch).Ok? <==> Stageable(st, seen, batch)
    decreases |batch|
  {
    hide StageOne, Held, Adds, Sound, AllSound, Distinct;
    if batch == [] {
      NothingIsStageable(st, seen);
    } else {
      StageOneIff(st, seen, batch[0]);
      if StageOne(st, seen, batch[0]).Ok? {
        RestIsStageable(st, seen, batch);
        StageAllIff(StageOne(st, seen, batch[0]).value, seen + {batch[0].key}, batch[1..]);
      } else if Stageable(st, seen, batch) {
        SoundTail(st.sources, batch);
        DistinctTail(seen, batch);
        RoomHead(st.pending, st.sources, batch);
      }
    }
  }

  lemma {:induction false} NothingIsStageable(st: Staging, seen: set<SourceKey>)
    ensures Stageable(st, seen, [])
  {
  }
}
