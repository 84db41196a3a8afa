/** The recorder's guarantees over every run. */
module RecorderRuns {
  import opened Common
  import opened RecorderModel
  import opened RecorderInvariant

  ghost predicate Leads(s: Sys, e: Event, t: Sys) {
    Enabled(s, e) && t == Step(s, e)
  }

  ghost predicate Run(l: Limits, states: seq<Sys>, events: seq<Event>) {
    && ValidLimits(l)
    && |states| == |events| + 1 && states[0] == Initial(l)
    && forall k :: 0 <= k < |events| ==> Leads(states[k], events[k], states[k + 1])
  }

  lemma {:induction false} LeadsKeepsInv(s: Sys, e: Event, t: Sys)
    requires Inv(s) && Leads(s, e, t)
    ensures Inv(t) && t.limits == s.limits
  {
    hide Inv;
    StepKeepsInv(s, e);
  }

  lemma {:induction false} RunKeepsInv(l: Limits, states: seq<Sys>, events: seq<Event>, k: nat)
    requires Run(l, states, events) && k < |states|
    ensures Inv(states[k]) && states[k].limits == l
    decreases k
  {
    hide Leads;
    if k == 0 {
      InitialOk(l);
    } else {
      hide Inv;
      RunKeepsInv(l, states, events, k - 1);
      assert Leads(states[k - 1], events[k - 1], states[k - 1 + 1]);
      LeadsKeepsInv(states[k - 1], events[k - 1], states[k]);
    }
  }

  lemma {:induction false} InitialOk(l: Limits)
    requires ValidLimits(l)
    ensures Inv(Initial(l))
  {
  }

  /** At every moment of every interleaving, the counters are exactly the live credits and the
      idle arenas, both limits hold, and a returned arena finds a place in the pool. */
  lemma {:induction false} BudgetConserved(l: Limits, states: seq<Sys>, events: seq<Event>, k: nat)
    requires Run(l, states, events) && k < |states|
    ensures var s := states[k];
            && s.budget.records == |s.live| <= l.records
            && s.budget.bytes == BATCH_CHARGE * |Batches(s.live)|
                + EVALUATION_CHARGE * (|Evaluations(s.live)| + s.budget.idle) <= l.bytes
            && s.budget.idle <= MAX_ARENAS
            && (Evaluations(s.live) != {} ==> s.budget.idle < MAX_ARENAS)
  {
    RunKeepsInv(l, states, events, k);
    var live := states[k].live;
    assert Evaluations(live) != {} ==> |Evaluations(live)| > 0;
  }

  /** A reservation implies queue room: neither an Emit nor a publication ever finds the queue
      full, and each queues its record with the next sequence. */
  lemma {:induction false} QueueNeverFull(l: Limits, states: seq<Sys>, events: seq<Event>, k: nat, o: nat)
    requires Run(l, states, events) && k < |states| && o < |states[k].owners| && states[k].owners[o].busy.Some?
    ensures |states[k].queue| < Capacity(l)
    ensures var s, p := states[k], states[k].owners[o].busy.value;
            && Enabled(s, Finish(o)) && Step(s, Finish(o)).owners[o].busy.None?
            && Step(s, Finish(o)).log ==
                s.log + [Record(o, s.owners[o].sequence + 1, p.count, p.credit, s.live[p.credit].ArenaCredit?)]
  {
    RunKeepsInv(l, states, events, k);
    FinishFindsRoom(states[k], o);
  }

  /** Each owner's admitted records have no gap, and end at its sequence. */
  lemma {:induction false} SequencesHaveNoGaps(l: Limits, states: seq<Sys>, events: seq<Event>, k: nat)
    requires Run(l, states, events) && k < |states|
    ensures GapFree(states[k].log)
    ensures forall o :: 0 <= o < |states[k].owners| ==>
        states[k].owners[o].sequence == Total(states[k].log, o) <= U64_MAX
  {
    RunKeepsInv(l, states, events, k);
    forall o | 0 <= o < |states[k].owners| ensures states[k].owners[o].sequence == Total(states[k].log, o) <= U64_MAX {
      OwnerWithin(states[k], o);
    }
  }

  // ------------------------------------------------------------ sticky stop

  /** The owner is invalid and no operation of its own is under way. */
  predicate Silent(s: Sys, o: nat) {
    o < |s.owners| && !s.owners[o].valid && s.owners[o].busy.None?
  }

  /** The log only grew, and not by this owner. */
  predicate QuietSince(before: Sys, after: Sys, o: nat) {
    && before.log <= after.log
    && forall i :: |before.log| <= i < |after.log| ==> after.log[i].owner != o
  }

  lemma {:induction false} LogStays(s: Sys, e: Event, t: Sys)
    requires Leads(s, e, t) && !e.Finish?
    ensures t.log == s.log
  {
    hide Reserve, Acquire, Release, ReleaseArena, Stop, Charge, FinishStep;
  }

  lemma {:induction false} SilentStep(s: Sys, e: Event, t: Sys, o: nat)
    requires Leads(s, e, t) && Silent(s, o)
    ensures Silent(t, o) && QuietSince(s, t, o)
  {
    hide Reserve, Acquire, Release, ReleaseArena, Stop, Capacity, Charge;
    if e.Finish? {
      assert e.owner != o;
    } else {
      LogStays(s, e, t);
    }
  }

  lemma {:induction false} QuietChain(a: Sys, b: Sys, c: Sys, o: nat)
    requires QuietSince(a, b, o) && QuietSince(b, c, o)
    ensures QuietSince(a, c, o)
  {
  }

  /** An invalid owner never admits again. */
  lemma {:induction false} StopsForGood(l: Limits, states: seq<Sys>, events: seq<Event>, i: nat, j: nat, o: nat)
    requires Run(l, states, events) && i <= j < |states| && Silent(states[i], o)
    ensures Silent(states[j], o) && QuietSince(states[i], states[j], o)
    decreases j
  {
    if i < j {
      hide Leads;
      StopsForGood(l, states, events, i, j - 1, o);
      assert Leads(states[j - 1], events[j - 1], states[j - 1 + 1]);
      SilentStep(states[j - 1], events[j - 1], states[j], o);
      QuietChain(states[i], states[j - 1], states[j], o);
    }
  }

  /** Admission by a valid owner fails only by silencing the owner: an Emit or a publication that
      does not silence it is about to send, and the send succeeds. */
  lemma {:induction false} FailureSilences(s: Sys, o: nat, c: nat, count: nat, wellFormed: bool)
    requires Inv(s) && OwnerFree(s, o) && s.owners[o].valid
    ensures var t := Step(s, EmitStart(o, count, wellFormed));
            t.owners[o].busy.Some? || Silent(t, o)
    ensures Enabled(s, Publish(o, c, wellFormed)) ==>
              var t := Step(s, Publish(o, c, wellFormed));
              t.owners[o].busy.Some? || Silent(t, o)
  {
    hide Inv;
  }

  /** After the budget is stopped nothing is granted and nothing is queued any more. */
  lemma {:induction false} StoppedStep(s: Sys, e: Event, t: Sys)
    requires Inv(s) && Leads(s, e, t) && s.budget.stopped
    ensures t.budget.stopped && t.log == s.log && (s.queue == [] ==> t.queue == [])
    ensures t.live.Keys <= s.live.Keys
  {
    match e {
      case EmitStart(o, _, _) =>
        assert !s.owners[o].valid;
      case BeginEvaluation(o) =>
        assert !s.owners[o].valid;
      case LeaseEvaluation(o) =>
        assert !s.owners[o].valid;
      case Publish(o, _, _) =>
        assert !s.owners[o].valid;
      case _ =>
    }
  }

  /** After the budget is stopped, over any further run: no credit is added, nothing is queued,
      and a drained queue stays empty. */
  lemma {:induction false} DrainedStaysDrained(l: Limits, states: seq<Sys>, events: seq<Event>, i: nat, j: nat)
    requires Run(l, states, events) && i <= j < |states| && states[i].budget.stopped
    ensures states[j].budget.stopped && states[j].log == states[i].log
    ensures states[i].queue == [] ==> states[j].queue == []
    ensures states[j].live.Keys <= states[i].live.Keys
    decreases j
  {
    hide Leads, Inv, Initial, ValidLimits;
    if i < j {
      DrainedStaysDrained(l, states, events, i, j - 1);
      RunKeepsInv(l, states, events, j - 1);
      assert Leads(states[j - 1], events[j - 1], states[j - 1 + 1]);
      StoppedStep(states[j - 1], events[j - 1], states[j]);
    }
  }

  // ------------------------------------------------------------------- close

  /** The event that returns a credit which is lent to a capture or to the writer. */
  function ReturnOf(s: Sys, c: nat): Event
    requires c in s.live
  {
    if s.live[c].place == Delivered then ReleaseDelivery(c) else Discard(c)
  }

  /** Stopped and drained. */
  predicate Drained(s: Sys) {
    s.budget.stopped && s.queue == []
  }

  lemma {:induction false} LoansRemain(s: Sys, c: nat)
    requires Inv(s) && Drained(s) && c in s.live
    ensures (s.live[c].place.Captured? || s.live[c].place == Delivered) && Enabled(s, ReturnOf(s, c))
  {
    assert Placed(s.owners, s.queue, s.live, c);
  }

  /** After Close, in every run: what is still charged is lent to a capture or to the writer, its
      return is possible, and the counters are exactly those loans. */
  lemma {:induction false} OnlyLoansRemain(l: Limits, states: seq<Sys>, events: seq<Event>, k: nat)
    requires Run(l, states, events) && k < |states| && Drained(states[k])
    ensures var s := states[k];
            && (forall c :: c in s.live ==>
                  (s.live[c].place.Captured? || s.live[c].place == Delivered) && Enabled(s, ReturnOf(s, c)))
            && s.budget.records == |s.live|
            && s.budget.bytes == BATCH_CHARGE * |Batches(s.live)| + EVALUATION_CHARGE * |Evaluations(s.live)|
  {
    RunKeepsInv(l, states, events, k);
    forall c | c in states[k].live
      ensures (states[k].live[c].place.Captured? || states[k].live[c].place == Delivered)
          && Enabled(states[k], ReturnOf(states[k], c))
    {
      LoansRemain(states[k], c);
    }
  }

  /** The loop of Close: each queued record gives its credit back. */
  ghost function Drain(s: Sys): (t: Sys)
    requires Inv(s) && s.budget.stopped
    ensures Inv(t) && Drained(t) && t.log == s.log
    decreases |s.queue|
  {
    if s.queue == [] then s else DrainOne(s); Drain(Step(s, CloseDrain))
  }

  lemma {:induction false} DrainOne(s: Sys)
    requires Inv(s) && s.budget.stopped && s.queue != []
    ensures Enabled(s, CloseDrain)
    ensures var t := Step(s, CloseDrain);
            && Inv(t) && t.budget.stopped && |t.queue| < |s.queue| && t.log == s.log
            && t.live == s.live - {s.queue[0].credit}
  {
    StepKeepsInv(s, CloseDrain);
  }

  /** What Close gives back is exactly what was queued: the other credits stay as they were. */
  lemma {:induction false} DrainReturnsQueued(s: Sys, c: nat)
    requires Inv(s) && s.budget.stopped
    ensures c in Drain(s).live <==> c in s.live && s.live[c].place != Queued
    ensures c in Drain(s).live ==> Drain(s).live[c] == s.live[c]
    decreases |s.queue|
  {
    if s.queue == [] {
      if c in s.live {
        assert Placed(s.owners, s.queue, s.live, c);
      }
    } else {
      DrainOne(s);
      assert s.live[s.queue[0].credit].place == Queued;
      DrainReturnsQueued(Step(s, CloseDrain), c);
    }
  }

  /** Returns in this order, one after another, lead from one state to another. */
  ghost predicate Returns(s: Sys, order: seq<nat>, t: Sys)
    decreases |order|
  {
    if order == [] then t == s
    else
      && order[0] in s.live && Enabled(s, ReturnOf(s, order[0]))
      && Returns(Step(s, ReturnOf(s, order[0])), order[1..], t)
  }

  lemma {:induction false} ReturnOne(s: Sys, c: nat)
    requires Inv(s) && Drained(s) && c in s.live
    ensures Enabled(s, ReturnOf(s, c))
    ensures var t := Step(s, ReturnOf(s, c)); Inv(t) && Drained(t) && t.live == s.live - {c}
  {
    LoansRemain(s, c);
    StepKeepsInv(s, ReturnOf(s, c));
  }

  /** Whatever the order in which the loans come back, both counters end at zero. */
  lemma {:induction false} ReturnsEndAtZero(s: Sys, order: seq<nat>) returns (t: Sys)
    requires Inv(s) && Drained(s) && (forall c :: c in order <==> c in s.live)
    requires forall i, j :: 0 <= i < j < |order| ==> order[i] != order[j]
    ensures Returns(s, order, t) && t.live == map[] && t.budget == Budget(0, 0, 0, true)
    decreases |order|
  {
    if order == [] {
      assert s.live == map[];
      assert Batches(map[]) == {} && Evaluations(map[]) == {};
      t := s;
    } else {
      ReturnOne(s, order[0]);
      var next := Step(s, ReturnOf(s, order[0]));
      forall c ensures c in order[1..] <==> c in next.live {
        assert c in order <==> c == order[0] || c in order[1..];
      }
      t := ReturnsEndAtZero(next, order[1..]);
    }
  }

  /** Close at any point of any run: its loop returns all queued credits, and once the loans that
      were out come back, in any order, both counters are zero. */
  lemma {:induction false} CloseThenReturns(l: Limits, states: seq<Sys>, events: seq<Event>, k: nat, order: seq<nat>)
      returns (t: Sys)
    requires Run(l, states, events) && k < |states| && states[k].budget.stopped
    requires forall c :: c in order <==> c in states[k].live && states[k].live[c].place != Queued
    requires forall i, j :: 0 <= i < j < |order| ==> order[i] != order[j]
    ensures Inv(states[k]) && Returns(Drain(states[k]), order, t)
    ensures t.queue == [] && t.live == map[] && t.budget.records == 0 && t.budget.bytes == 0
  {
    hide Inv, Returns;
    RunKeepsInv(l, states, events, k);
    var s := Drain(states[k]);
    forall c ensures c in order <==> c in s.live {
      DrainReturnsQueued(states[k], c);
    }
    t := ReturnsEndAtZero(s, order);
    ReturnsKeepQueue(s, order, t);
  }

  lemma {:induction false} ReturnsKeepQueue(s: Sys, order: seq<nat>, t: Sys)
    requires Returns(s, order, t)
    ensures t.queue == s.queue
    decreases |order|
  {
    if order != [] {
      ReturnsKeepQueue(Step(s, ReturnOf(s, order[0])), order[1..], t);
    }
  }

  /** The events that give a credit back once the budget is stopped; a publication is one of them,
      since it is turned down. */
  predicate Returning(e: Event) {
    e.CloseDrain? || e.Discard? || e.ReleaseDelivery? || e.Publish?
  }

  function ReturnsIn(events: seq<Event>): nat {
    if events == [] then 0 else ReturnsIn(events[..|events| - 1]) + if Returning(events[|events| - 1]) then 1 else 0
  }

  lemma {:induction false} StoppedCounts(s: Sys, e: Event, t: Sys)
    requires Inv(s) && Leads(s, e, t) && s.budget.stopped
    ensures |t.live| == |s.live| - if Returning(e) then 1 else 0
  {
    ClosedOwners(s);
    hide Inv;
    if Returning(e) {
      StoppedReturns(s, e, t);
    } else {
      StoppedKeeps(s, e, t);
    }
  }

  lemma {:induction false} ClosedOwners(s: Sys)
    requires Inv(s) && s.budget.stopped
    ensures AllGone(s)
  {
  }

  predicate AllGone(s: Sys) {
    forall o :: 0 <= o < |s.owners| ==> !s.owners[o].valid && s.owners[o].busy.None?
  }

  /** The credit that comes back. */
  lemma {:induction false} ReturnedOne(s: Sys, e: Event, t: Sys) returns (c: nat)
    requires AllGone(s) && Leads(s, e, t) && Returning(e)
    ensures c in s.live && t.live == s.live - {c}
  {
    hide Release, ReleaseArena, EmitStartStep, CaptureStep, FinishStep, InvalidatedAll, Stop, Charge;
    c := if e.CloseDrain? then s.queue[0].credit else e.credit;
  }

  lemma {:induction false} StoppedReturns(s: Sys, e: Event, t: Sys)
    requires AllGone(s) && Leads(s, e, t) && Returning(e)
    ensures |t.live| == |s.live| - 1
  {
    hide AllGone, Leads, Returning;
    var c := ReturnedOne(s, e, t);
    ReturnCounts(s.live, c);
  }

  lemma {:induction false} StoppedKeeps(s: Sys, e: Event, t: Sys)
    requires AllGone(s) && Leads(s, e, t) && !Returning(e)
    ensures |t.live| == |s.live|
  {
    hide Release, ReleaseArena, PublishStep, Reserve, Acquire, Stop, InvalidatedAll;
    match e {
      case Next => MoveCounts(s.live, s.queue[0].credit, Delivered);
      case _ =>
    }
  }

  lemma {:induction false} ReturnsCount(l: Limits, states: seq<Sys>, events: seq<Event>, i: nat, j: nat)
    requires Run(l, states, events) && i <= j < |states| && states[i].budget.stopped
    ensures |states[j].live| == |states[i].live| - ReturnsIn(events[i..j])
    decreases j
  {
    hide Leads, Inv, Initial, ValidLimits;
    if i < j {
      ReturnsCount(l, states, events, i, j - 1);
      DrainedStaysDrained(l, states, events, i, j - 1);
      RunKeepsInv(l, states, events, j - 1);
      assert Leads(states[j - 1], events[j - 1], states[j - 1 + 1]);
      StoppedCounts(states[j - 1], events[j - 1], states[j]);
      assert events[i..j][..j - i - 1] == events[i..j - 1] && events[i..j][j - i - 1] == events[j - 1];
    }
  }

  /** While any credit is out, some event gives one back: the loop of Close, or the holder of a
      loan. */
  lemma {:induction false} SomeReturnIsPossible(s: Sys) returns (e: Event)
    requires Inv(s) && s.budget.stopped && s.live != map[]
    ensures Returning(e) && Enabled(s, e)
  {
    if s.queue != [] {
      e := CloseDrain;
    } else {
      var c :| c in s.live;
      LoansRemain(s, c);
      e := ReturnOf(s, c);
    }
  }

  lemma {:induction false} QueuedIsLive(s: Sys)
    requires Inv(s)
    ensures s.queue != [] ==> s.live != map[]
  {
    if s.queue != [] {
      assert s.queue[0].credit in s.live;
    }
  }

  lemma {:induction false} NothingCharged(s: Sys)
    requires Inv(s) && s.budget.stopped && |s.live| == 0
    ensures s.queue == [] && s.live == map[] && s.budget == Budget(0, 0, 0, true)
  {
    QueuedIsLive(s);
    assert s.live == map[];
    assert Batches(s.live) == {} && Evaluations(s.live) == {};
  }

  /** Close at any point of any run, with its loop, the returns, deliveries and refused operations
      interleaved in any way: each return takes exactly one charged record off, one is possible
      while any is left, and after the last both counters are zero. */
  lemma {:induction false} CloseEndsAtZero(l: Limits, states: seq<Sys>, events: seq<Event>, i: nat, j: nat)
    requires Run(l, states, events) && i <= j < |states| && states[i].budget.stopped
    ensures var left := states[i].budget.records - ReturnsIn(events[i..j]);
            && states[j].budget.records == left >= 0
            && (left > 0 ==> exists e :: Returning(e) && Enabled(states[j], e))
            && (left == 0 ==> states[j].queue == [] && states[j].budget == Budget(0, 0, 0, true))
  {
    hide Leads, Initial, ValidLimits;
    RunKeepsInv(l, states, events, i);
    RunKeepsInv(l, states, events, j);
    DrainedStaysDrained(l, states, events, i, j);
    ReturnsCount(l, states, events, i, j);
    if |states[j].live| == 0 {
      NothingCharged(states[j]);
    } else {
      var e := SomeReturnIsPossible(states[j]);
    }
  }
}
