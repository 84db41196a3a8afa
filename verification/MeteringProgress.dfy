/** What the consumer owes its producer: which batches it takes, which it answers again, and that
    every byte reaches the sink once the writes succeed. */
module MeteringProgress {
  import opened Common
  import opened MeteringStaging
  import opened MeteringAdmission
  import opened MeteringDisk
  import opened MeteringProtocol
  import opened MeteringBooks
  import opened MeteringInvariant
  import opened MeteringRuns

  ghost predicate Ready(s: System) {
    s.consumer.Up? && s.consumer.healthy && s.consumer.phase == Idle
  }

  predicate Proper(b: Batch) {
    ValidProducerID(b.producerID) && 1 <= |b.snapshots| <= MAX_SNAPSHOTS
  }

  /** A batch that was applied before. */
  predicate Replays(st: State, b: Batch) {
    b.producerID == st.producerID && b.sequence <= st.lastApplied
  }

  /** The next batch of the producer, or the first one ever, all of one process that is not an
      earlier one, with reports that can be staged. */
  ghost predicate Fresh(st: State, b: Batch)
    requires b.snapshots != []
  {
    && (st.producerID == "" || b.producerID == st.producerID)
    && b.sequence == st.lastApplied + 1
    && (forall i :: 0 <= i < |b.snapshots| ==> b.snapshots[i].key.process == b.snapshots[0].key.process)
    && st.generation <= b.snapshots[0].key.process
    && Stageable(StageStart(st, b), {}, b.snapshots)
  }

  /** The consumer with a replay under way: the latest batch is drained if it still is pending, and
      whatever else was applied is answered at once. */
  function Replayed(c: Consumer, b: Batch): Consumer
    requires c.Up?
  {
    c.(phase := if b.sequence == c.state.lastApplied && c.state.books.pending != map[] then Draining(b.sequence)
                else Done(b.sequence))
  }

  lemma {:induction false} FreshIsAdmitted(st: State, checkpoint: SinkState, b: Batch)
    requires WellFormed(st) && CheckpointOk(st, checkpoint) && Proper(b) && !Replays(st, b)
    ensures Fresh(st, b) <==> Admit(st, true, checkpoint, b).Accept?
    ensures !Fresh(st, b) ==> Admit(st, true, checkpoint, b).Refuse?
  {
    hide StageAll, Stageable, ValidProducerID, CheckpointOk;
    StageAllIff(StageStart(st, b), {}, b.snapshots);
    assert (exists s :: s in b.snapshots && s.key.process != BatchGeneration(b)) <==>
           !(forall i :: 0 <= i < |b.snapshots| ==> b.snapshots[i].key.process == b.snapshots[0].key.process);
  }

  lemma {:induction false} DecidesExactly(s: System, b: Batch)
    requires Inv(s) && Ready(s)
    ensures var t, st := Next(s, Deliver(b)), s.consumer.state;
            if !Proper(b) then t == s
            else if Replays(st, b) then t == s.(consumer := Replayed(s.consumer, b))
            else if Fresh(st, b)
            then t == s.(consumer := s.consumer.(state := t.consumer.state, phase := Staged(b.sequence),
                                                 log := s.consumer.log + [b]))
                 && Accepted(st, b, t.consumer.state)
            else t == s
  {
    var st := s.consumer.state;
    WindowPassesCheck(s.durable.state, s.durable.sink);
    assert st == s.durable.state && s.sinkMemory == s.durable.sink && WellFormed(st);
    hide CheckpointOk, ValidProducerID, StageAll, Fresh, WellFormed;
    AdmitDecides(st, true, s.sinkMemory, b);
    if Proper(b) && !Replays(st, b) {
      FreshIsAdmitted(st, s.sinkMemory, b);
    }
  }

  /** In every state of every run, a healthy idle consumer takes a batch if and only if it is proper
      and fresh, answers a replay after draining what is still pending of it, and leaves everything
      as it was for any other. */
  lemma {:induction false} DeliveryIsDecided(trace: seq<System>, actions: seq<Action>, i: nat, b: Batch)
    requires Run(trace, actions) && i < |trace| && Ready(trace[i])
    ensures var s, t, st := trace[i], Next(trace[i], Deliver(b)), trace[i].consumer.state;
            && (t.consumer.phase.Staged? <==> Proper(b) && !Replays(st, b) && Fresh(st, b))
            && (Proper(b) && Replays(st, b) ==> t == s.(consumer := Replayed(s.consumer, b)))
            && (!(Proper(b) && (Replays(st, b) || Fresh(st, b))) ==> t == s)
  {
    hide Inv, Fresh, Run;
    RunKeepsInv(trace, actions, i);
    DecidesExactly(trace[i], b);
  }

  // --------------------------------------------------------------- completion

  /** The sink takes what is pending, or has it already. */
  lemma {:induction false} SinkTakes(s: System)
    requires Inv(s) && s.consumer.Up? && s.consumer.healthy && s.consumer.phase.Draining? && !s.sinkFailed
    ensures var t := Next(s, Ingest(false, Stored, true));
            && t.consumer == s.consumer.(phase := Drained(s.consumer.phase.sequence)) && !t.sinkFailed
            && t.durable == s.durable.(sink := t.durable.sink) && t.sinkMemory == t.durable.sink
            && t.durable.sink.sequence == s.consumer.state.lastApplied
  {
  }

  /** Everything that was accepted is on the sink's account. */
  ghost predicate AllIngested(d: Durable) {
    && d.state.books.pending == map[] && d.sink.sequence == d.state.lastApplied
    && forall k, c :: Ingested(d.sink.journal, k, c) == Truth(d.log, k, c)
  }

  lemma {:induction false} CoveredIsIngested(s: System)
    requires Inv(s) && s.durable.state.books.pending == map[]
    ensures AllIngested(s.durable)
  {
    forall k, c
      ensures Ingested(s.durable.sink.journal, k, c) == Truth(s.durable.log, k, c)
    {
      assert Balanced(s.durable, k, c);
    }
  }

  /** What a completed call leaves: the answer sent, everything ingested, and a consumer ready for
      the next. */
  ghost predicate Completed(s: System, n: U64, t: System) {
    Inv(t) && Ready(t) && AllIngested(t.durable) && t.durable.acks == s.durable.acks + {n} && !t.sinkFailed
  }

  /** From the clearing on: the write succeeds, and the answer is sent. */
  lemma {:induction false} ClearCompletes(s: System, image: Image) returns (more: seq<Action>, t: System)
    requires Inv(s) && s.consumer.Up? && s.consumer.healthy && s.consumer.phase.Drained? && !s.sinkFailed
    requires Encodes(image, Cleared(s.consumer.state))
    ensures more == [PersistCleared(Stored, image), Answer(true)] && Leads(s, more, t)
    ensures Completed(s, s.consumer.phase.sequence, t) && t.durable.log == s.consumer.log
  {
    hide Inv, Encodes, AllIngested, Leads;
    var one, two := PersistCleared(Stored, image), Answer(true);
    StepKeepsInv(s, one);
    var m := Next(s, one);
    StepKeepsInv(m, two);
    t := Next(m, two);
    CoveredIsIngested(t);
    LeadsOne(m, two);
    LeadsCons(s, one, [two], t);
    more := [one] + [two];
  }

  /** From the drain on: with a sink that accepts and writes that succeed, the batch is ingested,
      cleared and answered. */
  lemma {:induction false} DrainCompletes(s: System, image: Image) returns (more: seq<Action>, t: System)
    requires Inv(s) && s.consumer.Up? && s.consumer.healthy && s.consumer.phase.Draining? && !s.sinkFailed
    requires Encodes(image, Cleared(s.consumer.state))
    ensures more == [Ingest(false, Stored, true), PersistCleared(Stored, image), Answer(true)] && Leads(s, more, t)
    ensures Completed(s, s.consumer.phase.sequence, t) && t.durable.log == s.consumer.log
  {
    hide Inv, Encodes, AllIngested, IngestStep, Leads;
    var one := Ingest(false, Stored, true);
    SinkTakes(s);
    StepKeepsInv(s, one);
    more, t := ClearCompletes(Next(s, one), image);
    LeadsCons(s, one, more, t);
    more := [one] + more;
  }

  /** The latest batch again, in any state that keeps the invariant, with a healthy idle consumer: it is
      drained if it still was pending, and answered, and then nothing is missing at the sink. */
  lemma {:induction false} ReplayCompletes(s: System, b: Batch, image: Image) returns (more: seq<Action>, t: System)
    requires Inv(s) && Ready(s) && !s.sinkFailed && Proper(b)
    requires Replays(s.consumer.state, b) && b.sequence == s.consumer.state.lastApplied
    requires Encodes(image, Cleared(s.consumer.state))
    ensures Leads(s, [Deliver(b)] + more, t) && Completed(s, b.sequence, t) && t.durable.log == s.durable.log
  {
    assert s.durable.state == s.consumer.state && s.durable.log == s.consumer.log && InOrder(s, Deliver(b));
    hide Inv, Encodes, AllIngested, Fresh, Proper;
    DecidesExactly(s, b);
    StepKeepsInv(s, Deliver(b));
    var m := Next(s, Deliver(b));
    if m.consumer.phase.Draining? {
      more, t := DrainCompletes(m, image);
    } else {
      StepKeepsInv(m, Answer(true));
      t := Next(m, Answer(true));
      CoveredIsIngested(t);
      LeadsOne(m, Answer(true));
      more := [Answer(true)];
    }
    hide Next, Leads;
    LeadsCons(s, Deliver(b), more, t);
  }

  /** A fresh batch in order: it is staged, stored, drained and answered, and then nothing is missing
      at the sink. */
  lemma {:induction false} FreshCompletes(s: System, b: Batch, staged: Image, cleared: Image)
      returns (more: seq<Action>, t: System)
    requires Inv(s) && Ready(s) && !s.sinkFailed && Proper(b) && !Replays(s.consumer.state, b)
    requires Fresh(s.consumer.state, b) && InOrder(s, Deliver(b))
    requires Encodes(staged, Next(s, Deliver(b)).consumer.state)
    requires Encodes(cleared, Cleared(Next(s, Deliver(b)).consumer.state))
    ensures Leads(s, [Deliver(b)] + more, t) && Completed(s, b.sequence, t)
    ensures t.durable.log == s.durable.log + [b]
  {
    assert s.durable.log == s.consumer.log;
    hide Inv, Encodes, AllIngested, Fresh, Proper, InOrder;
    DecidesExactly(s, b);
    StepKeepsInv(s, Deliver(b));
    var m := Next(s, Deliver(b));
    var store := PersistStaged(Stored, staged);
    StepKeepsInv(m, store);
    var n := Next(m, store);
    var rest;
    rest, t := DrainCompletes(n, cleared);
    hide Next, Leads;
    LeadsCons(m, store, rest, t);
    more := [store] + rest;
    LeadsCons(s, Deliver(b), more, t);
  }

  /** After a crash at any point of any run, reopening and the replay of the latest durable batch put
      every byte of every accepted batch on the sink's account. */
  lemma {:induction false} CrashThenReplay(
      trace: seq<System>, actions: seq<Action>, i: nat, image: Image, b: Batch, cleared: Image)
      returns (more: seq<Action>, t: System)
    requires Run(trace, actions) && i < |trace| && trace[i].durable.state.lastApplied > 0
    requires Proper(b) && b.producerID == trace[i].durable.state.producerID
    requires b.sequence == trace[i].durable.state.lastApplied
    requires Encodes(image, MeteringDisk.FRESH) && Encodes(cleared, Cleared(trace[i].durable.state))
    ensures Leads(trace[i], [Crash, Open(Stored, image), Deliver(b)] + more, t)
    ensures Completed(trace[i], b.sequence, t) && t.durable.log == trace[i].durable.log
  {
    hide Inv, Run, Encodes, AllIngested, Proper, CheckpointOk, ImageValid, Decode;
    var s, again := trace[i], Open(Stored, image);
    RunKeepsInv(trace, actions, i);
    SurvivesCrash(s);
    StepKeepsInv(s, Crash);
    var down := Next(s, Crash);
    StepKeepsInv(down, again);
    var up := Next(down, again);
    more, t := ReplayCompletes(up, b, cleared);
    hide Next, Leads;
    LeadsCons(down, again, [Deliver(b)] + more, t);
    LeadsCons(s, Crash, [again] + ([Deliver(b)] + more), t);
    assert [Crash] + ([again] + ([Deliver(b)] + more)) == [Crash, again, Deliver(b)] + more;
  }

  // -------------------------------------------------------------------- calls

  /** The batch must be taken or answered. */
  ghost predicate Owed(st: State, b: Batch) {
    Proper(b) && (Replays(st, b) || Fresh(st, b))
  }

  /** What the sink makes of the pending bytes, if it does not object. */
  function Handed(s: System): (Sink, bool)
    requires s.consumer.Up?
  {
    var st := s.consumer.state;
    SinkApply(Sink(s.sinkMemory, s.durable.sink, s.sinkFailed), st.producerID, st.lastApplied, st.books.pending,
              false, Stored)
  }

  lemma {:induction false} SinkAccepts(s: System)
    requires Inv(s) && s.consumer.Up? && s.consumer.healthy && s.consumer.phase.Draining? && !s.sinkFailed
    ensures Handed(s).1 && Handed(s).0.disk.sequence == s.consumer.state.lastApplied
  {
  }

  /** A replay that finds nothing pending finds the sink in step. */
  lemma {:induction false} InStep(s: System)
    requires Inv(s) && s.consumer.Up? && s.consumer.healthy && s.consumer.phase.Done?
    requires s.consumer.phase.sequence == s.consumer.state.lastApplied
    ensures s.consumer.state.books.pending == map[] && s.durable.sink.sequence == s.consumer.state.lastApplied
  {
  }

  /** A call that nothing gets in the way of: a healthy consumer, a producer in order, a sink that
      accepts, and writes that succeed. */
  ghost predicate Unhindered(s: System, b: Batch, o: PersistOutcome, refuse: bool, sinkOutcome: PersistOutcome,
      writerHealthy: bool, clearOutcome: PersistOutcome) {
    && Inv(s) && Ready(s) && !s.sinkFailed && InOrder(s, Deliver(b))
    && !refuse && writerHealthy && o == sinkOutcome == clearOutcome == Stored
  }

  /** The latest batch is with the sink, and nothing is pending. */
  ghost predicate InSink(t: System) {
    && t.consumer.Up? && t.consumer.state.books.pending == map[]
    && t.durable.sink.sequence == t.consumer.state.lastApplied
  }

  /** What the decision leads to: a replay that needs no drain is in the sink; otherwise the sink will
      take what is pending. */
  lemma {:induction false} DeliverPrepares(s: System, b: Batch)
    requires Inv(s) && Ready(s) && !s.sinkFailed && InOrder(s, Deliver(b))
    ensures var m := Next(s, Deliver(b));
            && Inv(m) && m.consumer.Up? && !m.sinkFailed
            && (Owed(s.consumer.state, b) <==> !m.consumer.phase.Idle?)
            && (Owed(s.consumer.state, b) ==> m.consumer.healthy)
            && (m.consumer.phase == Done(m.consumer.state.lastApplied) ==> InSink(m))
            && (m.consumer.phase.Draining? ==> Handed(m).1 && Handed(m).0.disk.sequence == m.consumer.state.lastApplied)
  {
    hide Inv, Fresh, Handed, InOrder;
    DecidesExactly(s, b);
    StepKeepsInv(s, Deliver(b));
    var m := Next(s, Deliver(b));
    if m.consumer.phase.Draining? {
      SinkAccepts(m);
    } else if m.consumer.phase == Done(m.consumer.state.lastApplied) {
      InStep(m);
    }
  }

  lemma {:induction false} StorePrepares(m: System, image: Image)
    requires Inv(m) && m.consumer.Up? && m.consumer.healthy && m.consumer.phase.Staged? && !m.sinkFailed
    requires Encodes(image, m.consumer.state)
    ensures var n := Next(m, PersistStaged(Stored, image));
            n.consumer.Up? && Handed(n).1 && Handed(n).0.disk.sequence == n.consumer.state.lastApplied
  {
    hide Inv, Encodes, Handed;
    StepKeepsInv(m, PersistStaged(Stored, image));
    SinkAccepts(Next(m, PersistStaged(Stored, image)));
  }
}
