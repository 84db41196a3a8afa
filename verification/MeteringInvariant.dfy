/** What every action of the metering protocol keeps, in the file, at the sink and in memory. */
module MeteringInvariant {
  import opened Common
  import opened Listings
  import opened MeteringStaging
  import opened MeteringDisk
  import opened MeteringProtocol
  import opened MeteringBooks

  /** Where the durable checkpoint of the sink may stand. */
  ghost predicate SinkWindow(st: State, m: SinkState) {
    && (m.producerID == "" <==> m.sequence == 0)
    && (m.producerID != "" ==> m.producerID == st.producerID)
    && (m.sequence == st.lastApplied || (st.books.pending != map[] && m.sequence == st.lastApplied - 1))
  }

  /** The pending bytes that the sink has not ingested yet. */
  ghost function Uncovered(st: State, m: SinkState, k: Key, c: Meter): nat {
    if m.sequence == st.lastApplied then 0 else Held(st.books.pending, k, c)
  }

  /** Exactly once: for every meter of every key, what the sink ingested plus what is durably
      pending and not yet ingested is the sum over all counter incarnations. */
  ghost predicate Balanced(d: Durable, k: Key, c: Meter) {
    Ingested(d.sink.journal, k, c) + Uncovered(d.state, d.sink, k, c) == Truth(d.log, k, c)
  }

  ghost predicate Conserved(d: Durable) {
    forall k, c :: Balanced(d, k, c)
  }

  ghost predicate FileOk(d: Durable) {
    if d.file.None? then d.state == FRESH else Encodes(d.file.value, d.state)
  }

  /** Every answered sequence is durable on both sides, and its drain is complete. */
  ghost predicate AcksOk(d: Durable) {
    forall n :: n in d.acks ==>
      && n <= d.state.lastApplied && n <= d.sink.sequence
      && (n == d.state.lastApplied ==> d.state.books.pending == map[])
  }

  ghost predicate DurableOk(d: Durable) {
    FileOk(d) && Books(d.state, d.log) && SinkWindow(d.state, d.sink) && Conserved(d) && AcksOk(d)
  }

  /** A batch is staged in memory on top of the durable state. */
  ghost predicate StagedOn(c: Consumer, d: Durable)
    requires c.Up?
  {
    && d.state.books.pending == map[]
    && exists b :: c.log == d.log + [b] && Accepted(d.state, b, c.state)
  }

  /** A healthy consumer agrees with its file, except while a staged batch is being persisted. */
  ghost predicate HealthyOk(c: Consumer, d: Durable)
    requires c.Up?
  {
    && d.file.Some? && c.settled <= d.state.lastApplied
    && (if c.phase.Staged? then StagedOn(c, d) && c.phase.sequence == c.state.lastApplied
        else c.state == d.state && c.log == d.log)
    && match c.phase
       case Idle => d.state.lastApplied <= c.settled ==> d.state.books.pending == map[]
       case Staged(_) => true
       case Draining(n) => n == d.state.lastApplied && d.state.books.pending != map[]
       case Drained(n) => n == d.state.lastApplied && d.sink.sequence == n
       case Done(n) =>
         && n <= d.state.lastApplied && n <= d.sink.sequence
         && (n == d.state.lastApplied || d.state.lastApplied <= c.settled ==> d.state.books.pending == map[])
  }

  ghost predicate Inv(s: System) {
    && DurableOk(s.durable)
    && (s.consumer.Up? && s.consumer.healthy ==> HealthyOk(s.consumer, s.durable))
    && (s.consumer.Up? && !s.consumer.healthy ==> s.consumer.phase.Idle?)
    && (s.consumer.Down? || s.consumer.healthy ==> s.sinkMemory == s.durable.sink)
  }

  // -------------------------------------------------------- durable transitions

  lemma {:induction false} IngestedAppend(journal: seq<map<Key, Totals>>, m: map<Key, Totals>, k: Key, c: Meter)
    ensures Ingested(journal + [m], k, c) == Ingested(journal, k, c) + Held(m, k, c)
  {
    assert (journal + [m])[..|journal|] == journal;
  }

  /** Persisting a staged batch. */
  lemma {:induction false} StoreStaged(d: Durable, b: Batch, st: State, image: Image)
    requires DurableOk(d) && d.state.books.pending == map[]
    requires Accepted(d.state, b, st) && Encodes(image, st)
    ensures DurableOk(d.(file := Some(image), state := st, log := d.log + [b]))
    ensures st.books.pending != map[]
  {
    AcceptKeepsBooks(d.state, d.log, b, st);
    var e := d.(file := Some(image), state := st, log := d.log + [b]);
    forall k, c
      ensures Balanced(e, k, c)
    {
      assert Balanced(d, k, c);
      assert Moves(d.state, st, d.log, b, k, c);
    }
  }

  /** The sink storing the pending batch. */
  lemma {:induction false} StoreIngested(d: Durable)
    requires DurableOk(d) && d.state.lastApplied > 0 && d.sink.sequence == d.state.lastApplied - 1
    ensures DurableOk(d.(sink :=
        SinkState(d.state.producerID, d.state.lastApplied, d.sink.journal + [d.state.books.pending])))
  {
    var e := d.(sink := SinkState(d.state.producerID, d.state.lastApplied, d.sink.journal + [d.state.books.pending]));
    forall k, c
      ensures Balanced(e, k, c)
    {
      assert Balanced(d, k, c);
      IngestedAppend(d.sink.journal, d.state.books.pending, k, c);
    }
  }

  /** Persisting the state with pending cleared, once the sink has it. */
  lemma {:induction false} StoreCleared(d: Durable, image: Image)
    requires DurableOk(d) && d.sink.sequence == d.state.lastApplied && Encodes(image, Cleared(d.state))
    ensures DurableOk(d.(file := Some(image), state := Cleared(d.state)))
  {
    var e := d.(file := Some(image), state := Cleared(d.state));
    forall k, c
      ensures Balanced(e, k, c)
    {
      assert Balanced(d, k, c);
    }
  }

  // ------------------------------------------------------------------- steps

  /** Inside the window the consumer's own check passes, and nowhere else. */
  lemma {:induction false} CheckIsWindow(st: State, m: SinkState)
    requires WellFormed(st)
    ensures CheckpointOk(st, m) <==> SinkWindow(st, m)
  {
  }

  lemma {:induction false} WindowPassesCheck(st: State, m: SinkState)
    requires WellFormed(st) && SinkWindow(st, m)
    ensures CheckpointOk(st, m)
  {
    CheckIsWindow(st, m);
  }

  lemma {:induction false} OpenKeepsInv(s: System, o: PersistOutcome, image: Image)
    requires Inv(s) && Enabled(s, Open(o, image))
    ensures Inv(OpenStep(s, o, image))
  {
    hide ImageValid, Decode, CheckpointOk, Truth, Ingested, Encodes;
    if s.durable.file.Some? {
      LoadInvertsPersist(s.durable.file.value, s.durable.state);
    } else if !o.FailedBeforeRename? {
      var e := s.durable.(file := Some(image));
      assert forall k, c :: Balanced(s.durable, k, c) ==> Balanced(e, k, c);
    }
  }

  /** The producer's replay discipline makes a new batch find pending empty. */
  lemma {:induction false} AcceptedWasDrained(s: System, b: Batch)
    requires Inv(s) && Enabled(s, Deliver(b)) && s.consumer.healthy
    requires b.sequence == s.durable.state.lastApplied + 1
    ensures s.durable.state.books.pending == map[]
  {
  }

  lemma {:induction false} DecidedKeepsInv(s: System, b: Batch, d: Decision)
    requires Inv(s) && Enabled(s, Deliver(b)) && s.consumer.healthy
    requires Decides(s.consumer.state, b, d)
    ensures Inv(s.(consumer := Decided(s.consumer, b, d)))
  {
    if d.Accept? {
      AcceptedWasDrained(s, b);
      var c := Decided(s.consumer, b, d);
      assert c.log == s.durable.log + [b] && Accepted(s.durable.state, b, c.state);
      assert StagedOn(c, s.durable);
    }
  }

  lemma {:induction false} DeliverKeepsInv(s: System, b: Batch)
    requires Inv(s) && Enabled(s, Deliver(b))
    ensures Inv(DeliverStep(s, b))
  {
    var c := s.consumer;
    AdmitDecides(c.state, c.healthy, s.sinkMemory, b);
    if c.healthy {
      DecidedKeepsInv(s, b, Admit(c.state, c.healthy, s.sinkMemory, b));
    }
  }

  lemma {:induction false} PersistStagedKeepsInv(s: System, o: PersistOutcome, image: Image)
    requires Inv(s) && Enabled(s, PersistStaged(o, image))
    ensures Inv(Next(s, PersistStaged(o, image)))
  {
    var c := s.consumer;
    var b :| c.log == s.durable.log + [b] && Accepted(s.durable.state, b, c.state);
    StoreStaged(s.durable, b, c.state, image);
  }

  lemma {:induction false} IngestKeepsInv(s: System, refuse: bool, o: PersistOutcome, writerHealthy: bool)
    requires Inv(s) && Enabled(s, Ingest(refuse, o, writerHealthy))
    ensures Inv(IngestStep(s, refuse, o, writerHealthy))
  {
    var d := s.durable;
    if d.sink.sequence != d.state.lastApplied {
      StoreIngested(d);
    }
  }

  lemma {:induction false} PersistClearedKeepsInv(s: System, o: PersistOutcome, image: Image)
    requires Inv(s) && Enabled(s, PersistCleared(o, image))
    ensures Inv(Next(s, PersistCleared(o, image)))
  {
    StoreCleared(s.durable, image);
  }

  lemma {:induction false} AnswerKeepsInv(s: System, sent: bool)
    requires Inv(s) && Enabled(s, Answer(sent))
    ensures Inv(Next(s, Answer(sent)))
  {
    var e := s.durable.(acks := s.durable.acks + {s.consumer.phase.sequence});
    assert forall k, c :: Balanced(s.durable, k, c) ==> Balanced(e, k, c);
    assert DurableOk(e);
  }

  lemma {:induction false} StepKeepsInv(s: System, a: Action)
    requires Inv(s) && Enabled(s, a)
    ensures Inv(Next(s, a))
  {
    match a
    case Open(o, image) => OpenKeepsInv(s, o, image);
    case Deliver(b) => DeliverKeepsInv(s, b);
    case PersistStaged(o, image) => PersistStagedKeepsInv(s, o, image);
    case Ingest(refuse, o, writerHealthy) => IngestKeepsInv(s, refuse, o, writerHealthy);
    case PersistCleared(o, image) => PersistClearedKeepsInv(s, o, image);
    case Answer(sent) => AnswerKeepsInv(s, sent);
    case SinkFails =>
    case Crash =>
  }
}
