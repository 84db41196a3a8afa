/** What the log of accepted batches says the books should be, independently of how they are kept. */
module MeteringBooks {
  import opened Common
  import opened Listings
  import opened MeteringStaging
  import opened MeteringDisk
  import opened MeteringProtocol

  function LogGeneration(log: seq<Batch>): U64 {
    if log == [] || log[|log| - 1].snapshots == [] then 0 else BatchGeneration(log[|log| - 1])
  }

  /** The incarnations that a log of accepted batches reports. */
  ghost function LedgerOf(log: seq<Batch>): (l: Ledger)
    ensures LedgerValid(l)
  {
    if log == [] then EMPTY_LEDGER
    else
      var p, b := log[..|log| - 1], log[|log| - 1];
      RecordAll(RetireLedger(LedgerOf(p), LogGeneration(p), if b.snapshots == [] then 0 else BatchGeneration(b)),
          b.snapshots)
  }

  ghost function Truth(log: seq<Batch>, k: Key, c: Meter): nat {
    Exact(LedgerOf(log).entries, k, c)
  }

  /** The state is what the log of accepted batches says it should be. */
  ghost predicate Books(st: State, log: seq<Batch>) {
    && WellFormed(st)
    && st.lastApplied == |log| && st.generation == LogGeneration(log)
    && Tracks(LedgerOf(log), st.books.sources)
    && forall k, c :: Held(st.books.totals, k, c) == Min(Truth(log, k, c), U64_MAX)
  }

  lemma {:induction false} FreshBooks()
    ensures Books(FRESH, [])
  {
  }

  /** What acceptance establishes about a batch. */
  ghost predicate Accepted(st: State, b: Batch, after: State) {
    && b.snapshots != [] && ValidProducerID(b.producerID)
    && (st.producerID != "" ==> st.producerID == b.producerID)
    && st.lastApplied < U64_MAX && b.sequence == st.lastApplied + 1
    && (forall s :: s in b.snapshots ==> s.key.process == BatchGeneration(b))
    && st.generation <= BatchGeneration(b)
    && StageAll(StageStart(st, b), {}, b.snapshots) == Ok(after.books)
    && after == State(b.producerID, b.sequence, BatchGeneration(b), after.books)
  }

  /** What a decision tells about the batch. */
  ghost predicate Decides(st: State, b: Batch, d: Decision) {
    match d
    case Refuse(_) => true
    case Skewed => true
    case Duplicate => b.sequence < st.lastApplied
    case Redrain => b.sequence == st.lastApplied
    case Accept(after) => Accepted(st, b, after)
  }

  lemma {:induction false} AdmitDecides(st: State, healthy: bool, checkpoint: SinkState, b: Batch)
    ensures Decides(st, b, Admit(st, healthy, checkpoint, b))
    ensures !healthy ==> Admit(st, healthy, checkpoint, b).Refuse?
  {
  }

  lemma {:induction false} LedgerGrows(st: State, log: seq<Batch>, b: Batch)
    requires Books(st, log) && b.snapshots != []
    ensures var l := RetireLedger(LedgerOf(log), st.generation, BatchGeneration(b));
            && Tracks(l, StageStart(st, b).sources) && l.entries == LedgerOf(log).entries
            && LedgerOf(log + [b]) == RecordAll(l, b.snapshots)
  {
    RetireTracks(LedgerOf(log), st.books.sources, st.generation, BatchGeneration(b));
    assert (log + [b])[..|log|] == log;
  }

  /** How an accepted batch moves one meter of one key. */
  ghost predicate Moves(st: State, after: State, log: seq<Batch>, b: Batch, k: Key, c: Meter) {
    && Held(after.books.pending, k, c) + Truth(log, k, c) == Held(st.books.pending, k, c) + Truth(log + [b], k, c)
    && Held(after.books.totals, k, c) == Min(Truth(log + [b], k, c), U64_MAX)
  }

  lemma {:induction false} AcceptMoves(st: State, log: seq<Batch>, b: Batch, after: State, k: Key, c: Meter)
    requires Books(st, log) && Accepted(st, b, after)
    ensures Tracks(LedgerOf(log + [b]), after.books.sources)
    ensures Moves(st, after, log, b, k, c)
  {
    LedgerGrows(st, log, b);
    var l := RetireLedger(LedgerOf(log), st.generation, BatchGeneration(b));
    StageAllAgrees(StageStart(st, b), {}, l, b.snapshots, k, c);
  }

  lemma {:induction false} AcceptWellFormed(st: State, b: Batch, after: State)
    requires WellFormed(st) && Accepted(st, b, after)
    ensures WellFormed(after) && after.books.pending != map[]
  {
    var g := BatchGeneration(b);
    assert StagingWellFormed(StageStart(st, b), g);
    StageAllWellFormed(StageStart(st, b), {}, b.snapshots, g);
  }

  /** An accepted batch is the next entry of the log, and its growth is what pending gains. */
  lemma {:induction false} AcceptKeepsBooks(st: State, log: seq<Batch>, b: Batch, after: State)
    requires Books(st, log) && Accepted(st, b, after)
    ensures Books(after, log + [b]) && after.books.pending != map[]
    ensures forall k, c :: Moves(st, after, log, b, k, c)
  {
    AcceptWellFormed(st, b, after);
    forall k, c
      ensures Moves(st, after, log, b, k, c)
    {
      AcceptMoves(st, log, b, after, k, c);
    }
    AcceptMoves(st, log, b, after, Key("", "", false), Response);
    assert forall k, c :: Moves(st, after, log, b, k, c) ==>
        Held(after.books.totals, k, c) == Min(Truth(log + [b], k, c), U64_MAX);
  }
}
