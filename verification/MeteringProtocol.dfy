/** The durable metering protocol: one consumer process with its state file, the sink with
    its own state file, and a producer that replays. Every durable action is a step of its
    own, so a crash may fall between any two of them. */
module MeteringProtocol {
  import opened Common
  import opened Listings
  import opened MeteringStaging
  import opened MeteringDisk

  const MAX_SNAPSHOTS: nat := 1024

  datatype Batch = Batch(producerID: string, sequence: U64, snapshots: seq<Snapshot>)

  // -------------------------------------------------------------------- sink

  /** Checkpoint of the sink, and the batches it has ingested. */
  datatype SinkState = SinkState(producerID: string, sequence: U64, journal: seq<map<Key, Totals>>)

  const FRESH_SINK := SinkState("", 0, [])

  /** The running sink: its memory, its file, and its sticky persistence failure. */
  datatype Sink = Sink(memory: SinkState, disk: SinkState, failed: bool)

  /** A persist replaces the file by rename; it may report failure before or after that. */
  datatype PersistOutcome = Stored | FailedBeforeRename | FailedAfterRename

  function Ingested(journal: seq<map<Key, Totals>>, k: Key, c: Meter): nat {
    if journal == [] then 0
    else Ingested(journal[..|journal| - 1], k, c) + Held(journal[|journal| - 1], k, c)
  }

  /** One batch per producer and sequence: replays are no-ops, gaps are refused. */
  function SinkApply(sink: Sink, producerID: string, sequence: U64, deltas: map<Key, Totals>, refuse: bool,
      o: PersistOutcome): (Sink, bool) {
    var m := sink.memory;
    if sink.failed || !ValidProducerID(producerID) || sequence == 0 then (sink, false)
    else if m.producerID != "" && m.producerID != producerID then (sink, false)
    else if m.producerID == producerID && sequence <= m.sequence then (sink, true)
    else if m.sequence == U64_MAX || sequence != m.sequence + 1 || (m.producerID == "" && sequence != 1)
      || refuse then (sink, false)
    else
      var n := SinkState(producerID, sequence, m.journal + [deltas]);
      match o
      case Stored => (Sink(n, n, false), true)
      case FailedBeforeRename => (Sink(n, sink.disk, true), false)
      case FailedAfterRename => (Sink(n, n, true), false)
  }

  /** A sink takes a batch at most once: what it accepted it accepts again without effect, and
      its books move only by the next sequence and exactly this batch. */
  lemma {:induction false} SinkAppliesOnce(sink: Sink, producerID: string, sequence: U64, deltas: map<Key, Totals>,
      refuse: bool, o: PersistOutcome,
                                           other: map<Key, Totals>, refuseAgain: bool, again: PersistOutcome)
    ensures var (after, ok) := SinkApply(sink, producerID, sequence, deltas, refuse, o);
            && (ok ==> SinkApply(after, producerID, sequence, other, refuseAgain, again) == (after, true))
            && (after.memory != sink.memory ==>
                  && after.memory == SinkState(producerID, sink.memory.sequence + 1, sink.memory.journal + [deltas])
                  && after.memory.sequence == sequence
                      && (sink.memory.producerID == "" || sink.memory.producerID == producerID))
            && (after.disk != sink.disk ==> after.disk == after.memory != sink.memory)
            && (!ok && !after.failed ==> after == sink)
  {
    assert |sink.memory.journal + [deltas]| != |sink.memory.journal|;
  }

  /** The consumer's check of its state against the sink's checkpoint. */
  predicate CheckpointOk(st: State, m: SinkState) {
    if (m.producerID == "") != (m.sequence == 0) then false
    else if st.producerID == "" then m.producerID == "" && m.sequence == 0
    else if m.producerID != "" && m.producerID != st.producerID then false
    else if st.books.pending == map[] then m.producerID == st.producerID && m.sequence == st.lastApplied
    else
      && (m.sequence == st.lastApplied - 1 || m.sequence == st.lastApplied)
      && !(m.sequence > 0 && m.producerID != st.producerID)
  }

  // --------------------------------------------------------------- admission

  datatype Decision =
    | Refuse(reason: Refusal)
    | Skewed                  // the sink's checkpoint contradicts the state: fail closed
    | Duplicate               // already applied: answer again
    | Redrain                 // the latest batch again: finish its drain, then answer
    | Accept(state: State)

  function Admit(st: State, healthy: bool, checkpoint: SinkState, b: Batch): Decision {
    if !ValidProducerID(b.producerID) then Refuse(NoProducer)
    else if b.snapshots == [] then Refuse(NoSnapshots)
    else if |b.snapshots| > MAX_SNAPSHOTS then Refuse(TooManySnapshots)
    else if !healthy then Refuse(Unhealthy)
    else if !CheckpointOk(st, checkpoint) then Skewed
    else if st.producerID != "" && st.producerID != b.producerID then Refuse(ProducerMismatch)
    else if st.producerID == b.producerID && b.sequence <= st.lastApplied then
      if b.sequence == st.lastApplied then Redrain else Duplicate
    else if st.lastApplied == U64_MAX || b.sequence != st.lastApplied + 1 then Refuse(SequenceGap)
    else if st.producerID == "" && b.sequence != 1 then Refuse(FreshSequence)
    else if exists s :: s in b.snapshots && s.key.process != BatchGeneration(b) then Refuse(MixedGenerations)
    else if st.generation != 0 && BatchGeneration(b) < st.generation then Refuse(GenerationRegressed)
    else
      match StageAll(StageStart(st, b), {}, b.snapshots)
      case Err(e) => Refuse(e)
      case Ok(books) => Accept(State(b.producerID, b.sequence, BatchGeneration(b), books))
  }

  function StageStart(st: State, b: Batch): Staging
    requires b.snapshots != []
  {
    st.books.(sources := RetireSources(st.books.sources, st.generation, BatchGeneration(b)))
  }

  function BatchGeneration(b: Batch): U64
    requires b.snapshots != []
  {
    b.snapshots[0].key.process
  }

  // ------------------------------------------------------------------ system

  /** Where the one call in progress stands. */
  datatype Phase =
    | Idle
    | Staged(sequence: U64)    // batch staged in memory, about to persist
    | Draining(sequence: U64)  // about to hand pending to the sink
    | Drained(sequence: U64)   // sink has it, about to clear pending and persist
    | Done(sequence: U64)      // call succeeded, about to answer

  /** `settled` is the highest sequence this incarnation has completed without error;
      `log` holds the batches behind `state`. */
  datatype Consumer = Down | Up(state: State, healthy: bool, phase: Phase, settled: U64, log: seq<Batch>)

  /** What survives a crash: the consumer's file, the state it encodes, the batches behind
      that state, and the sink's file. `acks` are the answers ever sent. */
  datatype Durable = Durable(file: Option<Image>, state: State, log: seq<Batch>, sink: SinkState, acks: set<U64>)

  datatype System = System(consumer: Consumer, durable: Durable, sinkMemory: SinkState, sinkFailed: bool)

  datatype Action =
    | Open(o: PersistOutcome, image: Image)
    | Deliver(batch: Batch)
    | PersistStaged(o: PersistOutcome, image: Image)
    | Ingest(refuse: bool, o: PersistOutcome, writerHealthy: bool)
    | PersistCleared(o: PersistOutcome, image: Image)
    | Answer(sent: bool)
    | SinkFails
    | Crash

  const INITIAL := System(Down, Durable(None, FRESH, [], FRESH_SINK, {}), FRESH_SINK, false)

  function Cleared(st: State): State {
    st.(books := st.books.(pending := map[]))
  }

  /** What the call in progress allows. */
  ghost predicate Possible(s: System, a: Action) {
    var c := s.consumer;
    match a
    case Open(_, image) => c.Down? && Encodes(image, FRESH)
    case Deliver(b) => c.Up? && c.phase.Idle?
    case PersistStaged(_, image) => c.Up? && c.phase.Staged? && Encodes(image, c.state)
    case Ingest(_, _, _) => c.Up? && c.phase.Draining?
    case PersistCleared(_, image) => c.Up? && c.phase.Drained? && Encodes(image, Cleared(c.state))
    case Answer(_) => c.Up? && c.phase.Done?
    case SinkFails => true
    case Crash => true
  }

  /** What the producer keeps to: it replays its oldest unanswered batch first, so it offers
      the next new sequence only once the one before was answered, or was completed by this
      very incarnation. */
  ghost predicate InOrder(s: System, a: Action) {
    a.Deliver? && s.consumer.Up? && a.batch.sequence == s.consumer.state.lastApplied + 1 ==>
      var n := a.batch.sequence - 1;
      n == 0 || n in s.durable.acks || n <= s.consumer.settled
  }

  ghost predicate Enabled(s: System, a: Action) {
    Possible(s, a) && InOrder(s, a)
  }

  function Poisoned(c: Consumer): Consumer
    requires c.Up?
  {
    c.(healthy := false, phase := Idle)
  }

  /** The consumer writes its state file. */
  function Persisted(s: System, c: Consumer, next: Phase, o: PersistOutcome, image: Image): System
    requires c.Up?
  {
    var written := s.durable.(file := Some(image), state := c.state, log := c.log);
    match o
    case Stored => s.(consumer := c.(phase := next), durable := written)
    case FailedBeforeRename => s.(consumer := Poisoned(c))
    case FailedAfterRename => s.(consumer := Poisoned(c), durable := written)
  }

  ghost function OpenStep(s: System, o: PersistOutcome, image: Image): System {
    if s.sinkFailed then s
    else if s.durable.file.None? then
      match o
      case Stored => s.(consumer := if CheckpointOk(FRESH, s.sinkMemory) then Up(FRESH, true, Idle, 0, []) else Down,
                        durable := s.durable.(file := Some(image)))
      case FailedBeforeRename => s
      case FailedAfterRename => s.(durable := s.durable.(file := Some(image)))
    else
      var image := s.durable.file.value;
      if ImageValid(image) && CheckpointOk(Decode(image), s.sinkMemory) then
        s.(consumer := Up(Decode(image), true, Idle, 0, s.durable.log))
      else s
  }

  function DeliverStep(s: System, b: Batch): System
    requires s.consumer.Up?
  {
    s.(consumer := Decided(s.consumer, b, Admit(s.consumer.state, s.consumer.healthy, s.sinkMemory, b)))
  }

  function Decided(c: Consumer, b: Batch, d: Decision): Consumer
    requires c.Up?
  {
    match d
    case Refuse(_) => c
    case Skewed => Poisoned(c)
    case Duplicate => c.(phase := Done(b.sequence))
    case Redrain => c.(phase := if c.state.books.pending == map[] then Done(b.sequence) else Draining(b.sequence))
    case Accept(state) => c.(state := state, phase := Staged(b.sequence), log := c.log + [b])
  }

  function IngestStep(s: System, refuse: bool, o: PersistOutcome, writerHealthy: bool): System
    requires s.consumer.Up? && s.consumer.phase.Draining?
  {
    var c := s.consumer;
    var (sink, ok) := SinkApply(Sink(s.sinkMemory, s.durable.sink, s.sinkFailed),
                                c.state.producerID, c.state.lastApplied, c.state.books.pending, refuse, o);
    System(if ok && writerHealthy then c.(phase := Drained(c.phase.sequence)) else Poisoned(c),
           s.durable.(sink := sink.disk), sink.memory, sink.failed)
  }

  ghost function Next(s: System, a: Action): System
    requires Possible(s, a)
  {
    match a
    case Open(o, image) => OpenStep(s, o, image)
    case Deliver(b) => DeliverStep(s, b)
    case PersistStaged(o, image) => Persisted(s, s.consumer, Draining(s.consumer.phase.sequence), o, image)
    case Ingest(refuse, o, writerHealthy) => IngestStep(s, refuse, o, writerHealthy)
    case PersistCleared(o, image) =>
      Persisted(s, s.consumer.(state := Cleared(s.consumer.state)), Done(s.consumer.phase.sequence), o, image)
    case Answer(sent) =>
      var n := s.consumer.phase.sequence;
      s.(consumer := s.consumer.(phase := Idle, settled := Max(s.consumer.settled, n)),
         durable := if sent then s.durable.(acks := s.durable.acks + {n}) else s.durable)
    case SinkFails => s.(sinkFailed := true)
    case Crash => System(Down, s.durable, s.durable.sink, false)
  }

  /** A run: actions of the consumer and its environment, one after another. */
  ghost predicate Run(trace: seq<System>, actions: seq<Action>) {
    && |trace| == |actions| + 1
    && trace[0] == INITIAL
    && forall i :: 0 <= i < |actions| ==> Enabled(trace[i], actions[i]) && trace[i + 1] == Next(trace[i], actions[i])
  }

  /** The state that a sequence of possible actions leads to. */
  ghost predicate Leads(s: System, actions: seq<Action>, t: System)
    decreases |actions|
  {
    if actions == [] then s == t
    else Possible(s, actions[0]) && Leads(Next(s, actions[0]), actions[1..], t)
  }

  lemma {:induction false} LeadsOne(s: System, a: Action)
    requires Possible(s, a)
    ensures Leads(s, [a], Next(s, a))
  {
    assert Leads(Next(s, a), [a][1..], Next(s, a));
  }

  lemma {:induction false} LeadsCons(s: System, a: Action, actions: seq<Action>, t: System)
    requires Possible(s, a) && Leads(Next(s, a), actions, t)
    ensures Leads(s, [a] + actions, t)
  {
    assert ([a] + actions)[1..] == actions;
  }

  lemma {:induction false} LeadsConcat(s: System, first: seq<Action>, t: System, second: seq<Action>, u: System)
    requires Leads(s, first, t) && Leads(t, second, u)
    ensures Leads(s, first + second, u)
    decreases |first|
  {
    hide Possible, Next;
    if first == [] {
      assert first + second == second;
    } else {
      LeadsConcat(Next(s, first[0]), first[1..], t, second, u);
      assert (first + second)[1..] == first[1..] + second;
    }
  }
}
