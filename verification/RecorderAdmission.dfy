/** When the recorder must admit: idle arenas never stand in the way of a charge that fits without
    them. */
module RecorderAdmission {
  import opened Common
  import opened RecorderModel
  import opened RecorderInvariant
  import opened RecorderRuns

  /** Arenas are evicted until the charge fits or none is idle, and not one more. */
  lemma {:induction false} EvictIsLeast(l: Limits, b: Budget, charge: nat)
    ensures var e := Evict(l, b, charge);
            && e == b.(idle := e.idle, bytes := b.bytes - EVALUATION_CHARGE * (b.idle - e.idle)) && e.idle <= b.idle
            && (e.bytes + charge <= l.bytes || e.idle == 0)
            && (e.idle < b.idle ==> e.bytes + EVALUATION_CHARGE + charge > l.bytes)
    decreases b.idle
  {
    if charge > l.bytes - b.bytes && b.idle > 0 {
      EvictIsLeast(l, b.(idle := b.idle - 1, bytes := b.bytes - EVALUATION_CHARGE), charge);
    }
  }

  /** The bytes of the credits that are out, without those of idle arenas. */
  function Charged(live: Live): nat {
    BATCH_CHARGE * |Batches(live)| + EVALUATION_CHARGE * |Evaluations(live)|
  }

  /** One more credit with this charge is within both limits. */
  predicate FitsBeside(l: Limits, live: Live, charge: nat) {
    |live| < l.records && Charged(live) + charge <= l.bytes
  }

  lemma {:induction false} ReserveIff(l: Limits, b: Budget, live: Live, charge: nat)
    requires BudgetOk(l, b, live) && !b.stopped && charge > 0
    ensures Reserve(l, b, charge).0 <==> FitsBeside(l, live, charge)
  {
    EvictIsLeast(l, b, charge);
  }

  lemma {:induction false} AcquireIff(l: Limits, b: Budget, live: Live)
    requires BudgetOk(l, b, live) && !b.stopped
    ensures Acquire(l, b).0 <==> FitsBeside(l, live, EVALUATION_CHARGE)
  {
  }

  /** A valid owner without an operation under way. */
  predicate CanAct(s: Sys, o: nat) {
    OwnerFree(s, o) && s.owners[o].valid
  }

  lemma {:induction false} ValidIsNotStopped(s: Sys, o: nat)
    requires Inv(s) && CanAct(s, o)
    ensures !s.budget.stopped && BudgetOk(s.limits, s.budget, s.live) && FreshOk(s.live, s.next)
  {
  }

  /** A new credit of this kind is out for the owner, under a new identity. */
  predicate Grants(s: Sys, t: Sys, credit: Credit) {
    s.next !in s.live && t.live == s.live[s.next := credit]
  }

  lemma {:induction false} EmitIff(s: Sys, o: nat, count: nat, wellFormed: bool)
    requires Inv(s) && CanAct(s, o)
    ensures var t := Step(s, EmitStart(o, count, wellFormed));
            if && wellFormed && 0 < count <= MAX_EVENTS && s.owners[o].sequence + count <= U64_MAX
               && FitsBeside(s.limits, s.live, BATCH_CHARGE)
            then Grants(s, t, BatchCredit(Reserved(o))) && t.owners[o].busy == Some(Pending(count, s.next))
            else Silent(t, o) && t.live == s.live
  {
    ValidIsNotStopped(s, o);
    ReserveIff(s.limits, s.budget, s.live, BATCH_CHARGE);
    hide Inv, Reserve, BudgetOk, FitsBeside;
  }

  lemma {:induction false} CaptureIff(s: Sys, o: nat, pooled: bool)
    requires Inv(s) && CanAct(s, o)
    ensures var t := Step(s, if pooled then BeginEvaluation(o) else LeaseEvaluation(o));
            if FitsBeside(s.limits, s.live, EVALUATION_CHARGE)
            then Grants(s, t, if pooled then ArenaCredit(Captured(o)) else LeaseCredit(Captured(o))) && CanAct(t, o)
            else Silent(t, o) && t.live == s.live
  {
    ValidIsNotStopped(s, o);
    ReserveIff(s.limits, s.budget, s.live, EVALUATION_CHARGE);
    AcquireIff(s.limits, s.budget, s.live);
    hide Inv, Reserve, Acquire, BudgetOk, FitsBeside;
  }

  /** In every run, a valid owner's Emit goes to the queue if and only if its batch is well formed,
      its sequence has room, and the credits that are out leave room for one more batch, whatever
      arenas are idle; else the owner is invalid and nothing is charged. */
  lemma {:induction false} EmitIsAdmitted(l: Limits, states: seq<Sys>, events: seq<Event>, k: nat, o: nat, count: nat,
      wellFormed: bool)
    requires Run(l, states, events) && k < |states| && CanAct(states[k], o)
    ensures var s, t := states[k], Step(states[k], EmitStart(o, count, wellFormed));
            if && wellFormed && 0 < count <= MAX_EVENTS && s.owners[o].sequence + count <= U64_MAX
               && |s.live| < l.records && Charged(s.live) + BATCH_CHARGE <= l.bytes
            then && Enabled(t, Finish(o))
                 && Step(t, Finish(o)).log == s.log + [Record(o, s.owners[o].sequence + 1, count, s.next, false)]
            else Silent(t, o) && t.live == s.live
  {
    var s, t := states[k], Step(states[k], EmitStart(o, count, wellFormed));
    RunKeepsInv(l, states, events, k);
    EmitIff(s, o, count, wellFormed);
    StepKeepsInv(s, EmitStart(o, count, wellFormed));
    if t.owners[o].busy.Some? {
      FinishFindsRoom(t, o);
      EmitStartKeepsLog(s, o, count, wellFormed);
    }
    hide Inv;
  }

  lemma {:induction false} EmitStartKeepsLog(s: Sys, o: nat, count: nat, wellFormed: bool)
    requires OwnerFree(s, o)
    ensures Step(s, EmitStart(o, count, wellFormed)).log == s.log
    ensures Step(s, EmitStart(o, count, wellFormed)).owners[o].sequence == s.owners[o].sequence
  {
    hide Reserve;
  }

  /** In every run, a valid owner's capture is granted if and only if the credits that are out leave
      room for one more evaluation, with or without pooled storage; else the owner is invalid. */
  lemma {:induction false} CaptureIsGranted(l: Limits, states: seq<Sys>, events: seq<Event>, k: nat, o: nat,
      pooled: bool)
    requires Run(l, states, events) && k < |states| && CanAct(states[k], o)
    ensures var s, t := states[k], Step(states[k], if pooled then BeginEvaluation(o) else LeaseEvaluation(o));
            if |s.live| < l.records && Charged(s.live) + EVALUATION_CHARGE <= l.bytes
            then Grants(s, t, if pooled then ArenaCredit(Captured(o)) else LeaseCredit(Captured(o))) && CanAct(t, o)
            else Silent(t, o) && t.live == s.live
  {
    RunKeepsInv(l, states, events, k);
    hide Inv;
    CaptureIff(states[k], o, pooled);
  }

  // ------------------------------------------------------ owners and delivery

  lemma {:induction false} OwnersStep(s: Sys, e: Event, t: Sys)
    requires Leads(s, e, t) && |s.owners| <= s.limits.owners
    ensures t.limits == s.limits && |s.owners| <= |t.owners| <= t.limits.owners
  {
    hide Reserve, Acquire, Release, ReleaseArena, Stop, Capacity, Charge;
  }

  /** In every run there are never more owners than the limit. One more is made if and only if the
      recorder is open and below it; asking for one at the limit closes the recorder to all. */
  lemma {:induction false} OwnersWithin(l: Limits, states: seq<Sys>, events: seq<Event>, k: nat)
    requires Run(l, states, events) && k < |states|
    ensures states[k].limits == l && |states[k].owners| <= l.owners
    ensures var s, t := states[k], Step(states[k], NewOwner);
            if !s.closed && |s.owners| < l.owners then t == s.(owners := s.owners + [Owner(0, true, None)])
            else t.closed && |t.owners| == |s.owners| && forall o :: 0 <= o < |t.owners| ==> !t.owners[o].valid
    decreases k
  {
    if k > 0 {
      OwnersWithin(l, states, events, k - 1);
      assert Leads(states[k - 1], events[k - 1], states[k - 1 + 1]);
      OwnersStep(states[k - 1], events[k - 1], states[k]);
    }
    RunKeepsInv(l, states, events, k);
  }

  /** The queue is the end of the log. */
  predicate Tail(s: Sys) {
    |s.queue| <= |s.log| && s.queue == s.log[|s.log| - |s.queue|..]
  }

  lemma {:induction false} QueueSteps(s: Sys, e: Event, t: Sys)
    requires Leads(s, e, t) && !e.Finish?
    ensures t.queue == if e.Next? || e.CloseDrain? then s.queue[1..] else s.queue
  {
    hide Reserve, Acquire, Release, ReleaseArena, Stop, Charge, FinishStep;
  }

  lemma {:induction false} FinishAddsOne(s: Sys, o: nat, t: Sys)
    requires Leads(s, Finish(o), t)
    ensures (t.log == s.log && t.queue == s.queue)
            || exists r :: t.log == s.log + [r] && t.queue == s.queue + [r]
  {
    hide Release, ReleaseArena, Capacity, Charge;
    var p := s.owners[o].busy.value;
    if |s.queue| < Capacity(s.limits) {
      var r := Record(o, s.owners[o].sequence + 1, p.count, p.credit, s.live[p.credit].ArenaCredit?);
      assert t.log == s.log + [r] && t.queue == s.queue + [r];
    }
  }

  lemma {:induction false} TailStep(s: Sys, e: Event, t: Sys)
    requires Leads(s, e, t) && Tail(s)
    ensures Tail(t)
  {
    assert e.Next? || e.CloseDrain? ==> s.queue != [];
    hide Leads;
    if e.Finish? {
      FinishAddsOne(s, e.owner, t);
    } else {
      LogStays(s, e, t);
      QueueSteps(s, e, t);
    }
  }

  /** In every run records leave the queue in the order in which they were admitted, and none is lost
      before that: what is queued is always the latest part of what was admitted. */
  lemma {:induction false} QueueIsTail(l: Limits, states: seq<Sys>, events: seq<Event>, k: nat)
    requires Run(l, states, events) && k < |states|
    ensures Tail(states[k])
    ensures states[k].queue != [] ==> states[k].queue[0] == states[k].log[|states[k].log| - |states[k].queue|]
    decreases k
  {
    if k > 0 {
      QueueIsTail(l, states, events, k - 1);
      assert Leads(states[k - 1], events[k - 1], states[k - 1 + 1]);
      TailStep(states[k - 1], events[k - 1], states[k]);
    }
  }
}
