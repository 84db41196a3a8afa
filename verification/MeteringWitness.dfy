/** Concrete batches that show what a producer out of order does to the accounts. */
module MeteringWitness {
  import opened Common
  import opened MeteringStaging
  import opened MeteringDisk
  import opened MeteringProtocol
  import opened MeteringBooks
  import opened MeteringInvariant

  const SOURCE := SourceKey(1, 1, 1)
  const KEY := Key("k", "b", false)

  /** A source of one local backend that has received so many bytes. */
  function Report(inbound: U64): Snapshot {
    Snapshot(SOURCE, Baseline("b", "", "k", true, false, inbound, 0, 0, 0), false)
  }

  function Offer(producer: string, sequence: U64, inbound: U64): Batch {
    Batch(producer, sequence, [Report(inbound)])
  }

  function Kept(total: U64, pending: U64): Staging {
    Staging(map[SOURCE := Report(total).base], map[KEY := Totals(total, 0)], map[KEY := Totals(pending, 0)])
  }

  function After(producer: string, sequence: U64, total: U64, pending: U64): State {
    State(producer, sequence, 1, Kept(total, pending))
  }

  lemma {:induction false} FirstStages()
    ensures StageOne(FRESH.books, {}, Report(5)) == Ok(Kept(5, 5))
  {
    assert SnapshotDelta(FRESH.books.sources, Report(5)) == Ok(Totals(5, 0));
    assert KeyOf(Report(5).base) == KEY;
  }

  lemma {:induction false} SecondStages()
    ensures StageOne(Kept(5, 5), {}, Report(7)) == Ok(Kept(7, 7))
  {
    assert SnapshotDelta(Kept(5, 5).sources, Report(7)) == Ok(Totals(2, 0));
    assert KeyOf(Report(7).base) == KEY;
    assert Kept(5, 5).sources[SOURCE := Report(7).base] == Kept(7, 7).sources;
    assert AddTotals(Kept(5, 5).pending, KEY, Totals(2, 0)) == Kept(7, 7).pending;
    assert AddTotalsSaturating(Kept(5, 5).totals, KEY, Totals(2, 0)) == Kept(7, 7).totals;
  }

  lemma {:induction false} StagesAlone(st: Staging, s: Snapshot, next: Staging)
    requires StageOne(st, {}, s) == Ok(next)
    ensures StageAll(st, {}, [s]) == Ok(next)
  {
    hide StageOne;
    assert [s][1..] == [];
    assert StageAll(next, {} + {s.key}, []) == Ok(next);
  }

  lemma {:induction false} FirstAccepted(producer: string)
    requires ValidProducerID(producer)
    ensures Accepted(FRESH, Offer(producer, 1, 5), After(producer, 1, 5, 5))
  {
    hide StageOne, StageAll, ValidProducerID;
    FirstStages();
    StagesAlone(FRESH.books, Report(5), Kept(5, 5));
    assert StageStart(FRESH, Offer(producer, 1, 5)) == FRESH.books;
  }

  lemma {:induction false} SecondAccepted(producer: string)
    requires ValidProducerID(producer)
    ensures Accepted(After(producer, 1, 5, 5), Offer(producer, 2, 7), After(producer, 2, 7, 7))
  {
    hide StageOne, StageAll, ValidProducerID;
    SecondStages();
    StagesAlone(Kept(5, 5), Report(7), Kept(7, 7));
    assert StageStart(After(producer, 1, 5, 5), Offer(producer, 2, 7)) == Kept(5, 5);
  }

  lemma {:induction false} TwelveIngested()
    ensures Ingested([map[KEY := Totals(5, 0)]] + [map[KEY := Totals(7, 0)]], KEY, Response) == 12
  {
    IngestedAppend([], map[KEY := Totals(5, 0)], KEY, Response);
    assert [] + [map[KEY := Totals(5, 0)]] == [map[KEY := Totals(5, 0)]];
    IngestedAppend([map[KEY := Totals(5, 0)]], map[KEY := Totals(7, 0)], KEY, Response);
  }

  lemma {:induction false} SevenSent(producer: string)
    requires ValidProducerID(producer)
    ensures var first, second := Offer(producer, 1, 5), Offer(producer, 2, 7);
            Books(After(producer, 1, 5, 5), [first]) && Truth([first, second], KEY, Response) == 7
  {
    hide StageOne, StageAll, ValidProducerID, Accepted, Books, Truth;
    var first, second := Offer(producer, 1, 5), Offer(producer, 2, 7);
    FirstAccepted(producer);
    SecondAccepted(producer);
    FreshBooks();
    assert [] + [first] == [first] && [first] + [second] == [first, second];
    AcceptKeepsBooks(FRESH, [], first, After(producer, 1, 5, 5));
    AcceptMoves(After(producer, 1, 5, 5), [first], second, After(producer, 2, 7, 7), KEY, Response);
  }

  /** A file that holds the state. */
  function File(producer: string, sequence: U64, total: U64, pending: U64): Image {
    Image(STATE_VERSION, producer, sequence, 1, [(SOURCE, Report(total).base)],
          [(KEY, Totals(total, 0))], [(KEY, Totals(pending, 0))])
  }

  const FRESH_FILE := Image(STATE_VERSION, "", 0, 0, [], [], [])

  lemma {:induction false} FileEncodes(producer: string, sequence: U64, total: U64, pending: U64)
    ensures Encodes(FRESH_FILE, FRESH)
        && Encodes(File(producer, sequence, total, pending), After(producer, sequence, total, pending))
  {
    var img := File(producer, sequence, total, pending);
    assert img.sources[0].0 == SOURCE && img.totals[0].0 == KEY && img.pending[0].0 == KEY;
  }

  /** One batch accepted, stored and ingested; the call gets no further. */
  lemma {:induction false} Round(s: System, b: Batch, after: State, image: Image)
      returns (actions: seq<Action>, t: System)
    requires s.consumer.Up? && s.consumer.healthy && s.consumer.phase == Idle && !s.sinkFailed
    requires |b.snapshots| <= MAX_SNAPSHOTS && Accepted(s.consumer.state, b, after) && Encodes(image, after)
    requires s.consumer.state.producerID == "" ==> b.sequence == 1
    requires CheckpointOk(s.consumer.state, s.sinkMemory) && s.sinkMemory.sequence == s.consumer.state.lastApplied
    ensures Leads(s, actions, t) && actions == [Deliver(b), PersistStaged(Stored, image), Ingest(false, Stored, true)]
    ensures var sink := SinkState(b.producerID, b.sequence, s.sinkMemory.journal + [after.books.pending]);
            var log := s.consumer.log + [b];
            t == System(Up(after, true, Drained(b.sequence), s.consumer.settled, log),
                        Durable(Some(image), after, log, sink, s.durable.acks), sink, false)
  {
    hide StageAll, ValidProducerID, Encodes;
    var one, two, three := Deliver(b), PersistStaged(Stored, image), Ingest(false, Stored, true);
    assert Admit(s.consumer.state, true, s.sinkMemory, b) == Accept(after);
    var m := Next(s, one);
    var n := Next(m, two);
    t := Next(n, three);
    LeadsOne(n, three);
    LeadsCons(m, two, [three], t);
    LeadsCons(s, one, [two, three], t);
    assert [two] + [three] == [two, three] && [one] + [two, three] == [one, two, three];
    actions := [one, two, three];
  }

  /** The first batch of a fresh consumer, up to a crash before its pending record is cleared, and
      the restart. */
  lemma {:induction false} FirstThenCrash(producer: string) returns (actions: seq<Action>, t: System)
    requires ValidProducerID(producer)
    ensures Leads(INITIAL, actions, t)
    ensures actions ==
        [Open(Stored, FRESH_FILE), Deliver(Offer(producer, 1, 5)), PersistStaged(Stored, File(producer, 1, 5, 5)),
         Ingest(false, Stored, true), Crash, Open(Stored, FRESH_FILE)]
    ensures var sink := SinkState(producer, 1, [map[KEY := Totals(5, 0)]]);
            var st, log := After(producer, 1, 5, 5), [Offer(producer, 1, 5)];
            t == System(Up(st, true, Idle, 0, log),
                        Durable(Some(File(producer, 1, 5, 5)), st, log, sink, {}), sink, false)
  {
    hide StageAll, StageOne, Accepted, Encodes, WellFormed, Leads, ImageValid, Decode;
    assert |producer| > 0;
    hide ValidProducerID;
    var first, st, img := Offer(producer, 1, 5), After(producer, 1, 5, 5), File(producer, 1, 5, 5);
    FileEncodes(producer, 1, 5, 5);
    FirstAccepted(producer);
    SevenSent(producer);
    BooksWellFormed(st, [first]);
    LoadInvertsPersist(img, st);
    var up := Next(INITIAL, Open(Stored, FRESH_FILE));
    LeadsOne(INITIAL, Open(Stored, FRESH_FILE));
    var more, m := Round(up, first, st, img);
    LeadsConcat(INITIAL, [Open(Stored, FRESH_FILE)], up, more, m);
    assert [] + [st.books.pending] == [st.books.pending] && [] + [first] == [first];
    var down := Next(m, Crash);
    t := Next(down, Open(Stored, FRESH_FILE));
    LeadsOne(down, Open(Stored, FRESH_FILE));
    LeadsCons(m, Crash, [Open(Stored, FRESH_FILE)], t);
    LeadsConcat(INITIAL, [Open(Stored, FRESH_FILE)] + more, m, [Crash] + [Open(Stored, FRESH_FILE)], t);
    actions := [Open(Stored, FRESH_FILE)] + more + ([Crash] + [Open(Stored, FRESH_FILE)]);
  }

  lemma {:induction false} BooksWellFormed(st: State, log: seq<Batch>)
    requires Books(st, log)
    ensures WellFormed(st)
  {
  }

  /** A run in which the consumer crashes after the sink ingested five bytes, and the producer then
      offers the next batch instead of the unanswered one: twelve bytes are on the sink's account
      for the seven that were sent. Only that one delivery is out of order. */
  lemma {:induction false} DoubleCountHappens(producer: string) returns (actions: seq<Action>, m: System, t: System)
    requires ValidProducerID(producer)
    ensures |actions| == 9 && Leads(INITIAL, actions[..6], m) && Leads(m, actions[6..], t) && Leads(INITIAL, actions, t)
    ensures actions[6] == Deliver(Offer(producer, 2, 7)) && !InOrder(m, actions[6])
    ensures forall k, s :: 0 <= k < |actions| && k != 6 ==> InOrder(s, actions[k])
    ensures t.durable.log == [Offer(producer, 1, 5), Offer(producer, 2, 7)] && Truth(t.durable.log, KEY, Response) == 7
    ensures Ingested(t.durable.sink.journal, KEY, Response) == 12
  {
    hide StageAll, StageOne, Accepted, Encodes, Leads, Books, Truth, Ingested;
    assert |producer| > 0;
    hide ValidProducerID;
    var first, second, after := Offer(producer, 1, 5), Offer(producer, 2, 7), After(producer, 2, 7, 7);
    var before;
    before, m := FirstThenCrash(producer);
    SecondAccepted(producer);
    SevenSent(producer);
    FileEncodes(producer, 2, 7, 7);
    var more;
    more, t := Round(m, second, after, File(producer, 2, 7, 7));
    LeadsConcat(INITIAL, before, m, more, t);
    actions := before + more;
    assert actions[..6] == before && actions[6..] == more;
    assert [first] + [second] == [first, second];
    TwelveIngested();
  }
}
