/** The metering guarantees over every run. */
module MeteringRuns {
  import opened Common
  import opened Listings
  import opened MeteringStaging
  import opened MeteringDisk
  import opened MeteringProtocol
  import opened MeteringBooks
  import opened MeteringInvariant

  lemma {:induction false} RunKeepsInv(trace: seq<System>, actions: seq<Action>, i: nat)
    requires Run(trace, actions) && i < |trace|
    ensures Inv(trace[i])
    decreases i
  {
    if i == 0 {
      FreshBooks();
    } else {
      RunKeepsInv(trace, actions, i - 1);
      StepKeepsInv(trace[i - 1], actions[i - 1]);
    }
  }

  /** In every state of every run, with crashes, failed persists, restarts and replays
      anywhere: bytes ingested plus durable bytes not yet ingested are exactly the bytes all
      incarnations report, and every total is that sum, capped at one word. */
  lemma {:induction false} ExactlyOnce(trace: seq<System>, actions: seq<Action>, i: nat, k: Key, c: Meter)
    requires Run(trace, actions) && i < |trace|
    ensures var d := trace[i].durable;
            && Ingested(d.sink.journal, k, c) + Uncovered(d.state, d.sink, k, c) == Truth(d.log, k, c)
            && Held(d.state.books.totals, k, c) == Min(Truth(d.log, k, c), U64_MAX)
            && d.state.lastApplied == |d.log|
  {
    RunKeepsInv(trace, actions, i);
    assert Balanced(trace[i].durable, k, c);
  }

  /** Every answer ever sent is durable on both sides from then on. */
  lemma {:induction false} AnswersAreDurable(trace: seq<System>, actions: seq<Action>, i: nat, j: nat, n: U64)
    requires Run(trace, actions) && i <= j < |trace| && n in trace[i].durable.acks
    ensures n <= trace[j].durable.state.lastApplied && n <= trace[j].durable.sink.sequence
  {
    AnswersStay(trace, actions, i, j, n);
    RunKeepsInv(trace, actions, j);
  }

  lemma {:induction false} AnswersStay(trace: seq<System>, actions: seq<Action>, i: nat, j: nat, n: U64)
    requires Run(trace, actions) && i <= j < |trace| && n in trace[i].durable.acks
    ensures n in trace[j].durable.acks
    decreases j
  {
    if i < j {
      AnswersStay(trace, actions, i, j - 1, n);
      assert Enabled(trace[j - 1], actions[j - 1]) && trace[j - 1 + 1] == Next(trace[j - 1], actions[j - 1]);
    }
  }

  /** A crash at any point of any run can be recovered from. A file that exists is accepted,
      decodes to exactly the persisted state and passes the checkpoint check. Before the first
      file exists the durable state is fresh, and opening succeeds exactly if its first write
      does; if that fails, nothing is lost and the next attempt can still succeed. */
  lemma {:induction false} ReopenSucceeds(trace: seq<System>, actions: seq<Action>, i: nat, o: PersistOutcome,
      image: Image)
    requires Run(trace, actions) && i < |trace| && Encodes(image, FRESH)
    ensures var d := trace[i].durable;
            var after := Next(Next(trace[i], Crash), Open(o, image));
            && CheckpointOk(d.state, d.sink)
            && (d.file.Some? ==> ImageValid(d.file.value) && Decode(d.file.value) == d.state)
            && (d.file.None? ==> d.state == FRESH && d.log == [])
            && after.consumer == (if d.file.Some? || o == Stored then Up(d.state, true, Idle, 0, d.log) else Down)
            && (after.consumer.Down? ==> Next(after, Open(Stored, image)).consumer == Up(d.state, true, Idle, 0, d.log))
  {
    hide Inv, Run, Encodes, CheckpointOk, ImageValid, Decode;
    RunKeepsInv(trace, actions, i);
    SurvivesCrash(trace[i]);
    LoadInvertsPersist(image, FRESH);
  }

  /** What is durable can be read back. */
  lemma {:induction false} SurvivesCrash(s: System)
    requires Inv(s)
    ensures var d := s.durable;
            && CheckpointOk(d.state, d.sink)
            && (d.file.Some? ==> ImageValid(d.file.value) && Decode(d.file.value) == d.state)
            && (d.file.None? ==> d.state == FRESH && d.log == [])
  {
    hide ImageValid, Decode, CheckpointOk;
    var d := s.durable;
    WindowPassesCheck(d.state, d.sink);
    if d.file.Some? {
      LoadInvertsPersist(d.file.value, d.state);
    }
  }

  /** A healthy idle consumer never sees a skewed checkpoint, and a batch it does not accept
      changes no source, total, pending entry or sequence, in memory or on disk. */
  lemma {:induction false} RefusalChangesNothing(trace: seq<System>, actions: seq<Action>, i: nat, b: Batch)
    requires Run(trace, actions) && i < |trace|
    requires Enabled(trace[i], Deliver(b))
    requires var c := trace[i].consumer; !Admit(c.state, c.healthy, trace[i].sinkMemory, b).Accept?
    ensures var s, t := trace[i], Next(trace[i], Deliver(b));
            && t == s.(consumer := s.consumer.(phase := t.consumer.phase))
            && (Admit(s.consumer.state, s.consumer.healthy, s.sinkMemory, b).Refuse? ==> t == s)
  {
    var s := trace[i];
    RunKeepsInv(trace, actions, i);
    if s.consumer.healthy {
      WindowPassesCheck(s.durable.state, s.durable.sink);
    }
  }

  // ------------------------------------------- why replay order is needed

  /** Staging on leftovers that the sink has already ingested counts them twice: after the
      drain, the books of a meter balance exactly if the leftovers held nothing for it. */
  lemma {:induction false} LeftoversCountTwice(st: State, log: seq<Batch>, b: Batch, after: State, sink: Sink, k: Key,
      c: Meter)
    requires Books(st, log) && Accepted(st, b, after)
    requires sink.memory == sink.disk && !sink.failed
    requires sink.memory.producerID == st.producerID && sink.memory.sequence == st.lastApplied
    requires Ingested(sink.disk.journal, k, c) == Truth(log, k, c)
    ensures var (drained, ok) :=
        SinkApply(sink, after.producerID, after.lastApplied, after.books.pending, false, Stored);
            && ok
            && (Ingested(drained.disk.journal, k, c) == Truth(log + [b], k, c) <==> Held(st.books.pending, k, c) == 0)
  {
    AcceptMoves(st, log, b, after, k, c);
    IngestedAppend(sink.memory.journal, after.books.pending, k, c);
  }

  /** Staging on leftovers that the sink has not ingested leaves a gap: the sink refuses the
      drain, and the state can never be opened again. */
  lemma {:induction false} LeftoversWedge(st: State, log: seq<Batch>, b: Batch, after: State, sink: Sink,
      refuse: bool, o: PersistOutcome)
    requires Books(st, log) && Accepted(st, b, after)
    requires st.lastApplied > 0 && SinkWindow(st, sink.memory) && sink.memory.sequence == st.lastApplied - 1
    ensures SinkApply(sink, after.producerID, after.lastApplied, after.books.pending, refuse, o) == (sink, false)
    ensures !CheckpointOk(after, sink.memory)
  {
    AcceptKeepsBooks(st, log, b, after);
  }
}
