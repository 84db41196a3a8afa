/** The metering consumer as an object: its fields, its state file and its sink, with every
    call shown to be a sequence of protocol steps. */
module MeteringConsumer {
  import opened Common
  import opened MeteringStaging
  import opened MeteringDisk
  import opened MeteringProtocol
  import opened MeteringBooks
  import opened MeteringInvariant
  import opened MeteringProgress

  class StateFile {
    var image: Option<Image>
    constructor ()
      ensures image == None
    {
      image := None;
    }
  }

  class DurableSink {
    var memory: SinkState
    var disk: SinkState
    var failed: bool

    constructor ()
      ensures memory == disk == FRESH_SINK && !failed
    {
      memory, disk, failed := FRESH_SINK, FRESH_SINK, false;
    }

    /** Ingests a batch at most once per producer and sequence. */
    method ApplyMeteringBatch(producerID: string, sequence: U64, deltas: map<Key, Totals>, refuse: bool,
        o: PersistOutcome)
      returns (ok: bool)
      modifies this
      ensures (Sink(memory, disk, failed), ok) ==
          SinkApply(old(Sink(memory, disk, failed)), producerID, sequence, deltas, refuse, o)
    {
      if failed { return false; }
      if !ValidProducerID(producerID) || sequence == 0 { return false; }
      if memory.producerID != "" && memory.producerID != producerID { return false; }
      if memory.producerID == producerID && sequence <= memory.sequence { return true; }
      if memory.sequence == U64_MAX || sequence != memory.sequence + 1 { return false; }
      if memory.producerID == "" && sequence != 1 { return false; }
      if refuse { return false; }
      memory := SinkState(producerID, sequence, memory.journal + [deltas]);
      match o {
        case Stored => disk := memory; return true;
        case FailedBeforeRename => failed := true; return false;
        case FailedAfterRename => disk, failed := memory, true; return false;
      }
    }
  }

  // ------------------------------------------------------------------ staging

  /** Drops the sources of earlier processes, one map entry at a time. */
  method DropRetired(sources: map<SourceKey, Baseline>, current: U64, process: U64)
      returns (r: map<SourceKey, Baseline>)
    ensures r == RetireSources(sources, current, process)
  {
    r := sources;
    if process > current {
      var rest := sources.Keys;
      while rest != {}
        invariant rest <= sources.Keys
        invariant r == map k | k in sources && (k in rest || k.process >= process) :: sources[k]
        decreases |rest|
      {
        var k :| k in rest;
        rest := rest - {k};
        if k.process < process {
          r := r - {k};
        }
      }
    }
  }

  /** Stages one snapshot: marks it seen, derives its deltas, adds them, moves its baseline. */
  method StageSnapshot(books: Staging, seen: set<SourceKey>, s: Snapshot) returns (r: Result<Staging, Refusal>)
    ensures r == StageOne(books, seen, s)
  {
    if !Attributed(s) { return Err(UnknownAttribution); }
    if !KeysBounded(s.base) { return Err(KeyTooLong); }
    if s.key in seen { return Err(DuplicateSource); }
    var delta := SnapshotDelta(books.sources, s);
    if delta.Err? { return Err(delta.error); }
    var k := KeyOf(s.base);
    var totals := AddTotalsSaturating(books.totals, k, delta.value);
    if !Fits(books.pending, k, delta.value) { return Err(AggregateOverflow); }
    var pending := AddTotals(books.pending, k, delta.value);
    var sources := books.sources[s.key := s.base];
    if s.final {
      sources := sources - {s.key};
      assert sources == books.sources - {s.key};
    }
    r := Ok(Staging(sources, totals, pending));
  }

  /** Stages a whole batch on copies of the books, or reports the first refusal. */
  method StageBatch(books: Staging, batch: seq<Snapshot>) returns (r: Result<Staging, Refusal>)
    ensures r == StageAll(books, {}, batch)
  {
    var staged := books;
    var seen: set<SourceKey> := {};
    var i := 0;
    assert batch[0..] == batch;
    while i < |batch|
      invariant i <= |batch|
      invariant StageAll(staged, seen, batch[i..]) == StageAll(books, {}, batch)
    {
      ghost var rest := batch[i..];
      assert rest[0] == batch[i] && rest[1..] == batch[i + 1..];
      var next := StageSnapshot(staged, seen, batch[i]);
      if next.Err? { return next; }
      staged, seen, i := next.value, seen + {batch[i].key}, i + 1;
    }
    r := Ok(staged);
  }

  lemma {:induction false} StagedNotEmpty(books: Staging, seen: set<SourceKey>, batch: seq<Snapshot>)
    requires StageAll(books, seen, batch).Ok? && (batch != [] || books.pending != map[])
    ensures StageAll(books, seen, batch).value.pending != map[]
    decreases |batch|
  {
    if batch != [] {
      var next := StageOne(books, seen, batch[0]).value;
      assert KeyOf(batch[0].base) in next.pending;
      StagedNotEmpty(next, seen + {batch[0].key}, batch[1..]);
    }
  }

  /** Whether every snapshot carries the generation of the first. */
  method SameGeneration(b: Batch) returns (same: bool)
    requires b.snapshots != []
    ensures same <==> forall s :: s in b.snapshots ==> s.key.process == BatchGeneration(b)
  {
    for i := 1 to |b.snapshots|
      invariant forall j :: 0 <= j < i ==> b.snapshots[j].key.process == BatchGeneration(b)
    {
      if b.snapshots[i].key.process != BatchGeneration(b) {
        assert b.snapshots[i] in b.snapshots;
        return false;
      }
    }
    same := true;
  }

  // ----------------------------------------------------------------- consumer

  class MeteringConsumer {
    const file: StateFile
    const sink: DurableSink
    var producerID: string
    var lastApplied: U64
    var generation: U64
    var sources: map<SourceKey, Baseline>
    var totals: map<Key, Totals>
    var pending: map<Key, Totals>
    var healthy: bool

    function Fields(): State
      reads this
    {
      State(producerID, lastApplied, generation, Staging(sources, totals, pending))
    }

    /** The object, its file and its sink are in this state of the protocol. */
    ghost predicate Shows(s: System)
      reads this, file, sink
    {
      && s.consumer.Up? && s.consumer.state == Fields() && s.consumer.healthy == healthy
      && s.durable.file == file.image
      && s.durable.sink == sink.disk && s.sinkMemory == sink.memory && s.sinkFailed == sink.failed
    }

    constructor (file: StateFile, sink: DurableSink)
      ensures this.file == file && this.sink == sink
      ensures Fields() == FRESH && healthy
    {
      this.file, this.sink := file, sink;
      producerID, lastApplied, generation := "", 0, 0;
      sources, totals, pending := map[], map[], map[];
      healthy := true;
    }

    /** Opens the durable state: creates a fresh file, or loads and checks the existing one. */
    method Open(o: PersistOutcome, ghost s: System) returns (ok: bool, ghost a: Action)
      requires Fields() == FRESH && healthy
      requires s.consumer.Down? && s.durable.file == file.image && s.durable.sink == sink.disk
      requires s.sinkMemory == sink.memory && s.sinkFailed == sink.failed
      requires s.durable.file.None? ==> s.durable.state == FRESH
      modifies this, file
      ensures a.Open? && Possible(s, a)
      ensures ok <==> Next(s, a).consumer.Up?
      ensures ok ==> Shows(Next(s, a))
      ensures file.image == Next(s, a).durable.file
    {
      var image := PersistImage(FRESH);
      a := Action.Open(o, image);
      if sink.failed { return false, a; }
      if file.image.Some? {
        var loaded := LoadState(file.image.value);
        if loaded.None? { return false, a; }
        producerID, lastApplied, generation :=
            loaded.value.producerID, loaded.value.lastApplied, loaded.value.generation;
        sources, totals, pending := loaded.value.books.sources, loaded.value.books.totals, loaded.value.books.pending;
      } else {
        if o != FailedBeforeRename {
          file.image := Some(image);
        }
        if o != Stored { return false, a; }
      }
      ok := ValidateSinkCheckpoint();
    }

    method ValidateSinkCheckpoint() returns (ok: bool)
      ensures ok <==> CheckpointOk(Fields(), sink.memory)
    {
      var producer, sequence := sink.memory.producerID, sink.memory.sequence;
      if (producer == "") != (sequence == 0) { return false; }
      if producerID == "" {
        if producer != "" || sequence != 0 { return false; }
        return true;
      }
      if producer != "" && producer != producerID { return false; }
      if pending == map[] {
        if producer != producerID || sequence != lastApplied { return false; }
        return true;
      }
      if sequence != lastApplied - 1 && sequence != lastApplied { return false; }
      if sequence > 0 && producer != producerID { return false; }
      return true;
    }

    /** Writes the state file; it is replaced unless the failure came before the rename. */
    method Persist(o: PersistOutcome) returns (ok: bool, image: Image)
      modifies file
      ensures Encodes(image, Fields())
      ensures ok <==> o == Stored
      ensures file.image == if o == FailedBeforeRename then old(file.image) else Some(image)
    {
      image := PersistImage(Fields());
      if o != FailedBeforeRename {
        file.image := Some(image);
      }
      ok := o == Stored;
    }

    /** Clears what the sink has, and persists. */
    method ClearPending(o: PersistOutcome, ghost m: System) returns (ok: bool, ghost a: Action)
      requires Shows(m) && m.consumer.phase.Drained? && healthy
      modifies this, file
      ensures Possible(m, a) && a.PersistCleared? && Shows(Next(m, a)) && (ok <==> o == Stored)
      ensures Next(m, a).consumer.state == Cleared(m.consumer.state) && Next(m, a).durable.sink == m.durable.sink
      ensures if ok then Next(m, a).consumer.phase == Done(m.consumer.phase.sequence)
              else Next(m, a).consumer.phase.Idle? && !healthy
    {
      pending := map[];
      assert Fields() == Cleared(m.consumer.state);
      var image;
      ok, image := Persist(o);
      healthy := ok;
      a := PersistCleared(o, image);
    }

    /** Hands pending to the sink, clears it and persists, in at most two protocol steps;
        any failure leaves the consumer unhealthy. */
    method DrainPending(refuse: bool, sinkOutcome: PersistOutcome, writerHealthy: bool, o: PersistOutcome,
        ghost s: System)
      returns (ok: bool, ghost actions: seq<Action>, ghost t: System)
      requires Shows(s) && healthy
      requires if pending == map[] then s.consumer.phase.Done? else s.consumer.phase.Draining?
      modifies this, file, sink
      ensures Leads(s, actions, t) && Shows(t)
      ensures ok ==> t.consumer.phase == Done(s.consumer.phase.sequence)
      ensures !ok ==> t.consumer.phase.Idle? && !healthy
      ensures ok ==> t.consumer.state == Cleared(s.consumer.state)
      ensures s.consumer.phase.Done? ==> ok && t == s
      ensures !refuse && sinkOutcome == o == Stored && writerHealthy && s.consumer.phase.Draining? && Handed(s).1 ==>
                ok && t.durable.sink == Handed(s).0.disk
    {
      if pending == map[] {
        return true, [], s;
      }
      ghost var a := Ingest(refuse, sinkOutcome, writerHealthy);
      ghost var m := Next(s, a);
      var stored := sink.ApplyMeteringBatch(producerID, lastApplied, pending, refuse, sinkOutcome);
      if !stored || !writerHealthy {
        healthy := false;
        LeadsOne(s, a);
        return false, [a], m;
      }
      ghost var b;
      ok, b := ClearPending(o, m);
      actions, t := [a, b], Next(m, b);
      LeadsOne(m, b);
      LeadsCons(s, a, [b], t);
    }

    /** Decides what to do with a batch, changing nothing. */
    method Examine(b: Batch) returns (d: Decision)
      ensures d == Admit(Fields(), healthy, sink.memory, b)
    {
      if !ValidProducerID(b.producerID) { return Refuse(NoProducer); }
      if |b.snapshots| == 0 { return Refuse(NoSnapshots); }
      if |b.snapshots| > MAX_SNAPSHOTS { return Refuse(TooManySnapshots); }
      if !healthy { return Refuse(Unhealthy); }
      var checked := ValidateSinkCheckpoint();
      if !checked { return Skewed; }
      if producerID != "" && producerID != b.producerID { return Refuse(ProducerMismatch); }
      if producerID == b.producerID && b.sequence <= lastApplied {
        return if b.sequence == lastApplied then Redrain else Duplicate;
      }
      if lastApplied == U64_MAX || b.sequence != lastApplied + 1 { return Refuse(SequenceGap); }
      if producerID == "" && b.sequence != 1 { return Refuse(FreshSequence); }
      var same := SameGeneration(b);
      if !same { return Refuse(MixedGenerations); }
      var g := BatchGeneration(b);
      if generation != 0 && g < generation { return Refuse(GenerationRegressed); }
      var kept := DropRetired(sources, generation, g);
      var staged := StageBatch(Staging(kept, totals, pending), b.snapshots);
      if staged.Err? { return Refuse(staged.error); }
      return Accept(State(b.producerID, b.sequence, g, staged.value));
    }

    /** Takes over a staged state and persists it. */
    method Commit(st: State, o: PersistOutcome, ghost m: System) returns (ok: bool, ghost a: Action)
      requires m.consumer.Up? && m.consumer.phase.Staged? && m.consumer.state == st && m.consumer.healthy == healthy
      requires m.durable.file == file.image
      requires m.durable.sink == sink.disk && m.sinkMemory == sink.memory && m.sinkFailed == sink.failed
      requires healthy
      modifies this, file
      ensures Possible(m, a) && Shows(Next(m, a)) && Fields() == st
      ensures if ok then healthy && Next(m, a).consumer.phase == Draining(m.consumer.phase.sequence)
              else !healthy && Next(m, a).consumer.phase.Idle?
      ensures a.PersistStaged? && a.o == o && (ok <==> o == Stored)
    {
      producerID, lastApplied, generation := st.producerID, st.lastApplied, st.generation;
      sources, totals, pending := st.books.sources, st.books.totals, st.books.pending;
      var image;
      ok, image := Persist(o);
      healthy := ok;
      a := PersistStaged(o, image);
    }

    /** Applies one absolute batch. Without an error the protocol stands right before the
        answer for its sequence; `applied` tells a new batch from a replay. If nothing gets in the
        way, that is so for every batch that is owed an answer, and the latest is in the sink. */
    method ApplyAbsolute(b: Batch, o: PersistOutcome, refuse: bool, sinkOutcome: PersistOutcome, writerHealthy: bool,
                         clearOutcome: PersistOutcome, ghost s: System)
      returns (applied: bool, ok: bool, ghost actions: seq<Action>, ghost t: System)
      requires Shows(s) && s.consumer.phase.Idle?
      modifies this, file, sink
      ensures actions != [] && actions[0] == Deliver(b) && Leads(s, actions, t)
      ensures Shows(t)
      ensures if ok then t.consumer.phase == Done(b.sequence) else t.consumer.phase.Idle?
      ensures applied <==> ok && Admit(old(Fields()), old(healthy), old(sink.memory), b).Accept?
      ensures Unhindered(s, b, o, refuse, sinkOutcome, writerHealthy, clearOutcome) ==>
                && (ok <==> Owed(s.consumer.state, b))
                && (ok && t.consumer.state.lastApplied == b.sequence ==> InSink(t))
    {
      hide Inv, Owed, Handed, InOrder;
      var d := Examine(b);
      ghost var first := Deliver(b);
      ghost var m := Next(s, first);
      ghost var clear := Unhindered(s, b, o, refuse, sinkOutcome, writerHealthy, clearOutcome);
      if clear {
        DeliverPrepares(s, b);
      }
      LeadsOne(s, first);
      AdmitDecides(Fields(), healthy, sink.memory, b);
      match d {
        case Refuse(_) =>
          return false, false, [first], m;
        case Skewed =>
          healthy := false;
          return false, false, [first], m;
        case Duplicate =>
          return false, true, [first], m;
        case Redrain =>
          ghost var more;
          ok, more, t := DrainPending(refuse, sinkOutcome, writerHealthy, clearOutcome, m);
          LeadsCons(s, first, more, t);
          return false, ok, [first] + more, t;
        case Accept(st) =>
          StagedNotEmpty(StageStart(Fields(), b), {}, b.snapshots);
          ghost var second, more;
          ok, second := Commit(st, o, m);
          LeadsOne(m, second);
          LeadsCons(s, first, [second], Next(m, second));
          if !ok {
            return false, false, [first] + [second], Next(m, second);
          }
          if clear {
            StorePrepares(m, second.image);
          }
          ok, more, t := DrainPending(refuse, sinkOutcome, writerHealthy, clearOutcome, Next(m, second));
          LeadsCons(m, second, more, t);
          LeadsCons(s, first, [second] + more, t);
          return ok, ok, [first] + ([second] + more), t;
      }
    }
  }
}
