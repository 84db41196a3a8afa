/** What every interleaving of recorder operations keeps. */
module RecorderInvariant {
  import opened Common
  import opened RecorderModel

  type Live = map<nat, Credit>

  function Batches(live: Live): set<nat> {
    set c | c in live && live[c].BatchCredit?
  }

  function Evaluations(live: Live): set<nat> {
    set c | c in live && !live[c].BatchCredit?
  }

  /** The counters are exactly the live credits and the idle arenas, within both limits. */
  predicate BudgetOk(l: Limits, b: Budget, live: Live) {
    && b.records == |live| <= l.records
    && b.bytes == BATCH_CHARGE * |Batches(live)| + EVALUATION_CHARGE * (|Evaluations(live)| + b.idle) <= l.bytes
    && (b.stopped ==> b.idle == 0)
  }

  /** Each queued record holds a credit of its own. */
  predicate QueueOk(queue: seq<Record>, live: Live) {
    && (forall i :: 0 <= i < |queue| ==> queue[i].credit in live && live[queue[i].credit].place == Queued)
    && (forall i :: 0 <= i < |queue| ==>
        (queue[i].arena <==> live[queue[i].credit].ArenaCredit?) && !live[queue[i].credit].LeaseCredit?)
    && (forall i, j :: 0 <= i < j < |queue| ==> queue[i].credit != queue[j].credit)
  }

  /** An owner that is about to send holds the credit of its record. */
  predicate OwnerOk(o: nat, owner: Owner, live: Live) {
    && owner.sequence <= U64_MAX
    && (owner.busy.Some? ==>
          && owner.busy.value.credit in live && live[owner.busy.value.credit].place == Reserved(o)
              && !live[owner.busy.value.credit].LeaseCredit?
          && owner.busy.value.count > 0 && owner.sequence + owner.busy.value.count <= U64_MAX)
  }

  predicate OwnersOk(owners: seq<Owner>, live: Live) {
    forall o :: 0 <= o < |owners| ==> OwnerOk(o, owners[o], live)
  }

  predicate FreshOk(live: Live, next: nat) {
    forall c :: c in live ==> c < next
  }

  /** The events that an owner has put into the log. */
  function Total(log: seq<Record>, o: nat): nat {
    if log == [] then 0
    else Total(log[..|log| - 1], o) + if log[|log| - 1].owner == o then log[|log| - 1].count else 0
  }

  /** Each record starts right after all earlier events of its owner. */
  predicate GapFree(log: seq<Record>) {
    forall i :: 0 <= i < |log| ==> log[i].count > 0 && log[i].sequence == Total(log[..i], log[i].owner) + 1
  }

  predicate LogOk(log: seq<Record>, owners: seq<Owner>) {
    && GapFree(log)
    && (forall i :: 0 <= i < |log| ==> log[i].owner < |owners|)
    && (forall o :: 0 <= o < |owners| ==> owners[o].sequence == Total(log, o))
  }

  predicate ClosedOk(s: Sys) {
    && (s.closed ==> forall o :: 0 <= o < |s.owners| ==> !s.owners[o].valid)
    && (s.budget.stopped ==> s.closed && forall o :: 0 <= o < |s.owners| ==> s.owners[o].busy.None?)
  }

  predicate Core(s: Sys) {
    && ValidLimits(s.limits)
    && BudgetOk(s.limits, s.budget, s.live)
    && QueueOk(s.queue, s.live)
    && OwnersOk(s.owners, s.live)
    && FreshOk(s.live, s.next)
    && LogOk(s.log, s.owners)
    && ClosedOk(s)
  }

  /** A credit is where its place says: in the queue, with the owner that is about to send it, or
      lent to a capture of an existing owner. */
  predicate Placed(owners: seq<Owner>, queue: seq<Record>, live: Live, c: nat)
    requires c in live
  {
    match live[c].place
    case Queued => exists i :: 0 <= i < |queue| && queue[i].credit == c
    case Reserved(o) => o < |owners| && owners[o].busy.Some? && owners[o].busy.value.credit == c
    case Captured(o) => o < |owners| && !live[c].BatchCredit?
    case Delivered => true
  }

  predicate PlacesOk(owners: seq<Owner>, queue: seq<Record>, live: Live) {
    forall c :: c in live ==> Placed(owners, queue, live, c)
  }

  predicate Inv(s: Sys) {
    Core(s) && PlacesOk(s.owners, s.queue, s.live)
  }

  // ------------------------------------------------------------------ budget

  lemma {:induction false} LiveSplits(live: Live)
    ensures |live| == |Batches(live)| + |Evaluations(live)|
  {
    assert live.Keys == Batches(live) + Evaluations(live);
    assert |live.Keys| == |live|;
  }

  lemma {:induction false} GrantSets(live: Live, c: nat, credit: Credit)
    requires c !in live
    ensures var more := live[c := credit];
            && more.Keys == live.Keys + {c}
            && Batches(more) == Batches(live) + (if credit.BatchCredit? then {c} else {})
            && Evaluations(more) == Evaluations(live) + (if credit.BatchCredit? then {} else {c})
  {
  }

  lemma {:induction false} OneMore(a: set<nat>, c: nat)
    requires c !in a
    ensures |a + {c}| == |a| + 1 && a + {} == a
  {
  }

  lemma {:induction false} GrantCounts(live: Live, c: nat, credit: Credit)
    requires c !in live
    ensures var more := live[c := credit];
            && |more| == |live| + 1
            && |Batches(more)| == |Batches(live)| + (if credit.BatchCredit? then 1 else 0)
            && |Evaluations(more)| == |Evaluations(live)| + (if credit.BatchCredit? then 0 else 1)
  {
    GrantSets(live, c, credit);
    OneMore(live.Keys, c);
    OneMore(Batches(live), c);
    OneMore(Evaluations(live), c);
    assert |live.Keys| == |live| && |live[c := credit].Keys| == |live[c := credit]|;
  }

  lemma {:induction false} ReturnCounts(live: Live, c: nat)
    requires c in live
    ensures var less := live - {c};
            && |less| == |live| - 1
            && |Batches(less)| == |Batches(live)| - (if live[c].BatchCredit? then 1 else 0)
            && |Evaluations(less)| == |Evaluations(live)| - (if live[c].BatchCredit? then 0 else 1)
  {
    var less := live - {c};
    GrantCounts(less, c, live[c]);
    assert less[c := live[c]] == live;
  }

  lemma {:induction false} MoveCounts(live: Live, c: nat, place: Place)
    requires c in live
    ensures var moved := live[c := live[c].(place := place)];
            |moved| == |live| && Batches(moved) == Batches(live) && Evaluations(moved) == Evaluations(live)
  {
    var moved := live[c := live[c].(place := place)];
    assert moved.Keys == live.Keys;
    assert |moved.Keys| == |moved| && |live.Keys| == |live|;
  }

  lemma {:induction false} EvictKeeps(l: Limits, b: Budget, charge: nat, live: Live)
    requires BudgetOk(l, b, live)
    ensures BudgetOk(l, Evict(l, b, charge), live)
    ensures Evict(l, b, charge).records == b.records && Evict(l, b, charge).stopped == b.stopped
    decreases b.idle
  {
    if charge > l.bytes - b.bytes && b.idle > 0 {
      EvictKeeps(l, b.(idle := b.idle - 1, bytes := b.bytes - EVALUATION_CHARGE), charge, live);
    }
  }

  lemma {:induction false} ReserveKeeps(l: Limits, b: Budget, live: Live, c: nat, credit: Credit)
    requires BudgetOk(l, b, live) && c !in live
    ensures var (ok, b') := Reserve(l, b, Charge(credit));
            if ok then BudgetOk(l, b', live[c := credit]) && b'.stopped == b.stopped
            else BudgetOk(l, b', live) && b'.stopped == b.stopped
  {
    EvictKeeps(l, b, Charge(credit), live);
    GrantCounts(live, c, credit);
  }

  lemma {:induction false} AcquireKeeps(l: Limits, b: Budget, live: Live, c: nat, credit: Credit)
    requires BudgetOk(l, b, live) && c !in live && credit.ArenaCredit?
    ensures var (ok, b') := Acquire(l, b);
            if ok then BudgetOk(l, b', live[c := credit]) && b'.stopped == b.stopped else b' == b
  {
    GrantCounts(live, c, credit);
  }

  lemma {:induction false} ReturnKeeps(s: Sys, c: nat)
    requires BudgetOk(s.limits, s.budget, s.live) && c in s.live
    ensures BudgetOk(s.limits, Returned(s, c).budget, Returned(s, c).live)
    ensures Returned(s, c).budget.stopped == s.budget.stopped
  {
    ReturnCounts(s.live, c);
  }

  lemma {:induction false} StopKeeps(l: Limits, b: Budget, live: Live)
    requires BudgetOk(l, b, live)
    ensures BudgetOk(l, Stop(b), live)
  {
  }

  // ------------------------------------------------------------------- queue

  lemma {:induction false} QueueIsSmaller(queue: seq<Record>, live: Live, c: nat)
    requires QueueOk(queue, live) && c in live && live[c].place != Queued
    ensures |queue| < |live|
  {
    var held := set i | 0 <= i < |queue| :: queue[i].credit;
    DistinctCredits(queue, |queue|);
    assert held <= live.Keys - {c};
    SubsetSize(held, live.Keys - {c});
    assert |live.Keys| == |live|;
  }

  lemma {:induction false} DistinctCredits(queue: seq<Record>, n: nat)
    requires n <= |queue| && forall i, j :: 0 <= i < j < |queue| ==> queue[i].credit != queue[j].credit
    ensures |set i | 0 <= i < n :: queue[i].credit| == n
    decreases n
  {
    if n > 0 {
      DistinctCredits(queue, n - 1);
      var fewer := set i | 0 <= i < n - 1 :: queue[i].credit;
      assert (set i | 0 <= i < n :: queue[i].credit) == fewer + {queue[n - 1].credit};
    }
  }

  lemma {:induction false} SubsetSize(a: set<nat>, b: set<nat>)
    requires a <= b
    ensures |a| <= |b|
  {
    assert b == a + (b - a);
  }

  /** A credit that is live and not queued leaves room in the queue. */
  lemma {:induction false} CreditMeansRoom(s: Sys, c: nat)
    requires ValidLimits(s.limits) && BudgetOk(s.limits, s.budget, s.live) && QueueOk(s.queue, s.live)
    requires c in s.live && s.live[c].place != Queued
    ensures |s.queue| < Capacity(s.limits)
  {
    QueueIsSmaller(s.queue, s.live, c);
    LiveSplits(s.live);
    assert BATCH_CHARGE * |s.live| <= s.limits.bytes;
  }

  // ------------------------------------------------------------------- parts

  /** Queued credits stay as they are. */
  predicate QueuedStay(live: Live, after: Live) {
    forall c :: c in live && live[c].place == Queued ==> c in after && after[c] == live[c]
  }

  /** Reserved credits stay as they are. */
  predicate ReservedStay(live: Live, after: Live) {
    forall c :: c in live && live[c].place.Reserved? ==> c in after && after[c] == live[c]
  }

  lemma {:induction false} QueueFrame(queue: seq<Record>, live: Live, after: Live)
    requires QueueOk(queue, live) && QueuedStay(live, after)
    ensures QueueOk(queue, after)
  {
  }

  lemma {:induction false} OwnersFrame(owners: seq<Owner>, live: Live, after: Live)
    requires OwnersOk(owners, live) && ReservedStay(live, after)
    ensures OwnersOk(owners, after)
  {
    forall o | 0 <= o < |owners| ensures OwnerOk(o, owners[o], after) {
      assert OwnerOk(o, owners[o], live);
    }
  }

  lemma {:induction false} BudgetOnly(s: Sys, b: Budget)
    requires Core(s) && BudgetOk(s.limits, b, s.live) && b.stopped == s.budget.stopped
    ensures Core(s.(budget := b))
  {
  }

  lemma {:induction false} InvalidatedKeeps(s: Sys, o: nat)
    requires Core(s) && o < |s.owners|
    ensures Core(Invalidated(s, o))
  {
    var t := Invalidated(s, o);
    assert OwnersOk(t.owners, t.live) by {
      forall p | 0 <= p < |t.owners| ensures OwnerOk(p, t.owners[p], t.live) {
        assert OwnerOk(p, s.owners[p], s.live);
      }
    }
  }

  lemma {:induction false} InvalidatedAllKeeps(s: Sys)
    requires Core(s)
    ensures Core(s.(closed := true, owners := InvalidatedAll(s.owners)))
  {
    var t := s.(closed := true, owners := InvalidatedAll(s.owners));
    assert OwnersOk(t.owners, t.live) by {
      forall p | 0 <= p < |t.owners| ensures OwnerOk(p, t.owners[p], t.live) {
        assert OwnerOk(p, s.owners[p], s.live);
      }
    }
  }

  lemma {:induction false} GrantedKeeps(s: Sys, b: Budget, credit: Credit)
    requires Core(s) && BudgetOk(s.limits, b, s.live[s.next := credit]) && b.stopped == s.budget.stopped
    ensures Core(Granted(s, b, credit)) && s.next !in s.live
  {
    var after := s.live[s.next := credit];
    assert s.next !in s.live;
    QueueFrame(s.queue, s.live, after);
    OwnersFrame(s.owners, s.live, after);
  }

  lemma {:induction false} ReturnedKeeps(s: Sys, c: nat)
    requires Core(s) && c in s.live && !s.live[c].place.Reserved?
    requires forall i :: 0 <= i < |s.queue| ==> s.queue[i].credit != c
    ensures Core(Returned(s, c))
  {
    var after := s.live - {c};
    ReturnKeeps(s, c);
    OwnersFrame(s.owners, s.live, after);
  }

  lemma {:induction false} TotalSnoc(log: seq<Record>, r: Record, o: nat)
    ensures Total(log + [r], o) == Total(log, o) + if r.owner == o then r.count else 0
  {
    assert (log + [r])[..|log|] == log;
  }

  lemma {:induction false} LogGrows(log: seq<Record>, owners: seq<Owner>, r: Record, after: seq<Owner>)
    requires LogOk(log, owners) && r.owner < |owners| == |after| && r.count > 0
        && r.sequence == owners[r.owner].sequence + 1
    requires forall p :: 0 <= p < |owners| ==>
        after[p].sequence == owners[p].sequence + if p == r.owner then r.count else 0
    ensures LogOk(log + [r], after)
  {
    var more := log + [r];
    forall i | 0 <= i < |more| ensures more[i].count > 0 && more[i].sequence == Total(more[..i], more[i].owner) + 1 {
      assert more[..i] == log[..i];
      if i == |log| {
        assert log[..i] == log;
      }
    }
    forall p | 0 <= p < |after| ensures after[p].sequence == Total(more, p) {
      TotalSnoc(log, r, p);
    }
  }

  lemma {:induction false} AdmittedOwners(s: Sys, o: nat, count: nat, c: nat)
    requires OwnersOk(s.owners, s.live) && o < |s.owners| && c in s.live && s.owners[o].sequence + count <= U64_MAX
    requires s.live[c].place == Reserved(o)
    ensures OwnersOk(Admitted(s, o, count, c).owners, Admitted(s, o, count, c).live)
  {
    var t := Admitted(s, o, count, c);
    forall p | 0 <= p < |t.owners| ensures OwnerOk(p, t.owners[p], t.live) {
      assert OwnerOk(p, s.owners[p], s.live);
    }
  }

  lemma {:induction false} AdmittedQueue(s: Sys, o: nat, count: nat, c: nat)
    requires QueueOk(s.queue, s.live) && o < |s.owners| && c in s.live && s.live[c].place != Queued
        && !s.live[c].LeaseCredit?
    ensures QueueOk(Admitted(s, o, count, c).queue, Admitted(s, o, count, c).live)
  {
    QueueFrame(s.queue, s.live, Admitted(s, o, count, c).live);
  }

  /** A queued record keeps its credit, and the owner's log goes on without a gap. */
  lemma {:induction false} AdmittedKeeps(s: Sys, o: nat, count: nat, c: nat)
    requires Core(s) && o < |s.owners| && c in s.live && s.live[c].place == Reserved(o) && !s.live[c].LeaseCredit?
    requires count > 0 && s.owners[o].sequence + count <= U64_MAX
    ensures Core(Admitted(s, o, count, c))
  {
    hide QueueOk, OwnersOk, LogOk;
    var t := Admitted(s, o, count, c);
    MoveCounts(s.live, c, Queued);
    AdmittedOwners(s, o, count, c);
    AdmittedQueue(s, o, count, c);
    LogGrows(s.log, s.owners, t.log[|s.log|], t.owners);
  }

  // ------------------------------------------------------------------- steps

  lemma {:induction false} EmitStartKeeps(s: Sys, o: nat, count: nat, wellFormed: bool)
    requires Core(s) && OwnerFree(s, o)
    ensures Core(EmitStartStep(s, o, count, wellFormed))
  {
    hide QueueOk, LogOk, BudgetOk;
    var t := EmitStartStep(s, o, count, wellFormed);
    if !s.owners[o].valid {
    } else if count == 0 || count > MAX_EVENTS || !wellFormed || s.owners[o].sequence > U64_MAX - count {
      InvalidatedKeeps(s, o);
    } else {
      var credit := BatchCredit(Reserved(o));
      assert s.next !in s.live;
      ReserveKeeps(s.limits, s.budget, s.live, s.next, credit);
      var (ok, b) := Reserve(s.limits, s.budget, BATCH_CHARGE);
      if ok {
        GrantedKeeps(s, b, credit);
        BusyKeeps(Granted(s, b, credit), o, count, s.next);
      } else {
        BudgetOnly(s, b);
        InvalidatedKeeps(s.(budget := b), o);
      }
    }
  }

  lemma {:induction false} BusyKeeps(s: Sys, o: nat, count: nat, c: nat)
    requires Core(s) && OwnerFree(s, o) && s.owners[o].valid && c in s.live && s.live[c].place == Reserved(o)
        && !s.live[c].LeaseCredit?
    requires count > 0 && s.owners[o].sequence <= U64_MAX - count
    ensures Core(s.(owners := s.owners[o := s.owners[o].(busy := Some(Pending(count, c)))]))
  {
    hide QueueOk, BudgetOk;
    var t := s.(owners := s.owners[o := s.owners[o].(busy := Some(Pending(count, c)))]);
    forall p | 0 <= p < |t.owners| ensures OwnerOk(p, t.owners[p], t.live) {
      assert OwnerOk(p, s.owners[p], s.live);
    }
  }

  /** An Emit or a publication that is about to send always finds room in the queue. */
  lemma {:induction false} FinishFindsRoom(s: Sys, o: nat)
    requires Core(s) && o < |s.owners| && s.owners[o].busy.Some?
    ensures |s.queue| < Capacity(s.limits)
    ensures s.owners[o].busy.value.credit in s.live
    ensures FinishStep(s, o) == Admitted(s, o, s.owners[o].busy.value.count, s.owners[o].busy.value.credit)
  {
    assert OwnerOk(o, s.owners[o], s.live);
    CreditMeansRoom(s, s.owners[o].busy.value.credit);
  }

  lemma {:induction false} FinishKeeps(s: Sys, o: nat)
    requires Core(s) && o < |s.owners| && s.owners[o].busy.Some?
    ensures s.owners[o].busy.value.credit in s.live && Core(FinishStep(s, o))
  {
    hide QueueOk, LogOk, BudgetOk;
    FinishFindsRoom(s, o);
    assert OwnerOk(o, s.owners[o], s.live);
    AdmittedKeeps(s, o, s.owners[o].busy.value.count, s.owners[o].busy.value.credit);
  }

  lemma {:induction false} CapturedIsNotQueued(s: Sys, c: nat)
    requires QueueOk(s.queue, s.live) && c in s.live && s.live[c].place != Queued
    ensures forall i :: 0 <= i < |s.queue| ==> s.queue[i].credit != c
  {
  }

  lemma {:induction false} PublishKeeps(s: Sys, o: nat, c: nat, isSealed: bool)
    requires Core(s) && Enabled(s, Publish(o, c, isSealed))
    ensures Core(PublishStep(s, o, c, isSealed))
  {
    hide QueueOk, LogOk, BudgetOk, OwnersOk, FreshOk, ClosedOk;
    var holder := s.live[c].place.owner;
    CapturedIsNotQueued(s, c);
    InvalidatedKeeps(s, o);
    InvalidatedKeeps(Invalidated(s, o), holder);
    ReturnedKeeps(Invalidated(Invalidated(s, o), holder), c);
    ReturnedKeeps(Invalidated(s, o), c);
    ReturnedKeeps(s, c);
    OwnerWithin(s, o);
    if holder == o && isSealed && s.owners[o].valid && s.owners[o].sequence < U64_MAX {
      var t := s.(live := s.live[c := s.live[c].(place := Reserved(o))]);
      MovedKeeps(s, c, Reserved(o));
      BusyKeeps(t, o, 1, c);
    }
  }

  /** A credit of a capture moves to another place outside the queue. */
  lemma {:induction false} MovedKeeps(s: Sys, c: nat, place: Place)
    requires Core(s) && c in s.live && s.live[c].place.Captured? && place != Queued
    ensures Core(s.(live := s.live[c := s.live[c].(place := place)]))
  {
    hide LogOk;
    var after := s.live[c := s.live[c].(place := place)];
    MoveCounts(s.live, c, place);
    QueueFrame(s.queue, s.live, after);
    OwnersFrame(s.owners, s.live, after);
  }

  lemma {:induction false} OwnerWithin(s: Sys, o: nat)
    requires OwnersOk(s.owners, s.live) && o < |s.owners|
    ensures s.owners[o].sequence <= U64_MAX
  {
    assert OwnerOk(o, s.owners[o], s.live);
  }

  lemma {:induction false} CaptureKeeps(s: Sys, o: nat, arena: bool)
    requires Core(s) && OwnerFree(s, o)
    ensures Core(CaptureStep(s, o, arena))
  {
    hide QueueOk, LogOk, BudgetOk, OwnersOk, ClosedOk;
    if s.owners[o].valid {
      assert s.next !in s.live;
      var credit := if arena then ArenaCredit(Captured(o)) else LeaseCredit(Captured(o));
      if arena {
        AcquireKeeps(s.limits, s.budget, s.live, s.next, credit);
      } else {
        ReserveKeeps(s.limits, s.budget, s.live, s.next, credit);
      }
      var (ok, b) := if arena then Acquire(s.limits, s.budget) else Reserve(s.limits, s.budget, EVALUATION_CHARGE);
      if ok {
        GrantedKeeps(s, b, credit);
      } else {
        BudgetOnly(s, b);
        InvalidatedKeeps(s.(budget := b), o);
      }
    }
  }

  lemma {:induction false} TakeKeeps(s: Sys)
    requires Core(s) && |s.queue| > 0
    ensures s.queue[0].credit in s.live && Enabled(s, Next) && Core(Step(s, Next))
  {
    hide LogOk;
    var c := s.queue[0].credit;
    var after := s.live[c := s.live[c].(place := Delivered)];
    MoveCounts(s.live, c, Delivered);
    OwnersFrame(s.owners, s.live, after);
  }

  lemma {:induction false} DrainKeeps(s: Sys)
    requires Core(s) && |s.queue| > 0
    ensures s.queue[0].credit in s.live && Core(Returned(s.(queue := s.queue[1..]), s.queue[0].credit))
  {
    hide LogOk, BudgetOk, OwnersOk;
    var t := s.(queue := s.queue[1..]);
    assert QueueOk(t.queue, t.live);
    ReturnedKeeps(t, s.queue[0].credit);
  }

  lemma {:induction false} NewOwnerKeeps(s: Sys)
    requires Core(s)
    ensures Core(Step(s, NewOwner))
  {
    if !s.closed {
      if |s.owners| >= s.limits.owners {
        InvalidatedAllKeeps(s);
      } else {
        var t := s.(owners := s.owners + [Owner(0, true, None)]);
        NoEventsYet(s.log, |s.owners|);
        forall p | 0 <= p < |t.owners| ensures OwnerOk(p, t.owners[p], t.live) {
          if p < |s.owners| {
            assert OwnerOk(p, s.owners[p], s.live);
          }
        }
      }
    }
  }

  lemma {:induction false} NoEventsYet(log: seq<Record>, o: nat)
    requires forall i :: 0 <= i < |log| ==> log[i].owner < o
    ensures Total(log, o) == 0
    decreases |log|
  {
    if log != [] {
      NoEventsYet(log[..|log| - 1], o);
    }
  }

  lemma {:induction false} StopKeepsCore(s: Sys)
    requires Core(s) && Enabled(s, CloseStop)
    ensures Core(s.(budget := Stop(s.budget)))
  {
    hide LogOk, OwnersOk, QueueOk;
    StopKeeps(s.limits, s.budget, s.live);
  }

  /** Every step keeps the counters, the queue, the owners and the log. */
  lemma {:induction false} StepKeepsCore(s: Sys, e: Event)
    requires Core(s) && Enabled(s, e)
    ensures Core(Step(s, e))
  {
    hide QueueOk, LogOk, BudgetOk, OwnersOk, FreshOk, ClosedOk;
    match e {
      case NewOwner => NewOwnerKeeps(s);
      case EmitStart(o, count, wellFormed) => EmitStartKeeps(s, o, count, wellFormed);
      case Finish(o) => FinishKeeps(s, o);
      case BeginEvaluation(o) => CaptureKeeps(s, o, true);
      case LeaseEvaluation(o) => CaptureKeeps(s, o, false);
      case Publish(o, c, isSealed) => PublishKeeps(s, o, c, isSealed);
      case Discard(c) =>
        CapturedIsNotQueued(s, c);
        InvalidatedKeeps(s, s.live[c].place.owner);
        ReturnedKeeps(Invalidated(s, s.live[c].place.owner), c);
        ReturnedKeeps(s, c);
      case Next => TakeKeeps(s);
      case ReleaseDelivery(c) =>
        CapturedIsNotQueued(s, c);
        ReturnedKeeps(s, c);
      case Invalidate(o) => InvalidatedKeeps(s, o);
      case CloseFence => InvalidatedAllKeeps(s);
      case CloseStop => StopKeepsCore(s);
      case CloseDrain => DrainKeeps(s);
    }
  }

  // ------------------------------------------------------------------ places

  /** Nothing but the validity of owners, new owners, or credits leaving. */
  predicate SamePlaces(s: Sys, t: Sys) {
    && t.queue == s.queue
    && |s.owners| <= |t.owners| && (forall o :: 0 <= o < |s.owners| ==> t.owners[o].busy == s.owners[o].busy)
    && (forall c :: c in t.live ==> c in s.live && t.live[c] == s.live[c])
  }

  lemma {:induction false} SamePlacesKeep(s: Sys, t: Sys)
    requires PlacesOk(s.owners, s.queue, s.live) && SamePlaces(s, t)
    ensures PlacesOk(t.owners, t.queue, t.live)
  {
    forall c | c in t.live ensures Placed(t.owners, t.queue, t.live, c) {
      assert Placed(s.owners, s.queue, s.live, c);
    }
  }

  lemma {:induction false} GrantedPlaces(s: Sys, t: Sys, credit: Credit)
    requires PlacesOk(s.owners, s.queue, s.live) && t.queue == s.queue && t.live == s.live[s.next := credit]
    requires |t.owners| == |s.owners| && s.next !in s.live
    requires forall o :: 0 <= o < |s.owners| && s.owners[o].busy.Some? ==> t.owners[o].busy == s.owners[o].busy
    requires Placed(t.owners, t.queue, t.live, s.next)
    ensures PlacesOk(t.owners, t.queue, t.live)
  {
    forall c | c in t.live ensures Placed(t.owners, t.queue, t.live, c) {
      if c != s.next {
        assert Placed(s.owners, s.queue, s.live, c);
      }
    }
  }

  lemma {:induction false} EmitStartPlaces(s: Sys, o: nat, count: nat, wellFormed: bool)
    requires PlacesOk(s.owners, s.queue, s.live) && FreshOk(s.live, s.next) && OwnerFree(s, o)
    ensures var t := EmitStartStep(s, o, count, wellFormed); PlacesOk(t.owners, t.queue, t.live)
  {
    hide Reserve, PlacesOk;
    var t := EmitStartStep(s, o, count, wellFormed);
    if t.owners[o].busy.Some? {
      GrantedPlaces(s, t, BatchCredit(Reserved(o)));
    } else {
      SamePlacesKeep(s, t);
    }
  }

  lemma {:induction false} CapturePlaces(s: Sys, o: nat, arena: bool)
    requires PlacesOk(s.owners, s.queue, s.live) && FreshOk(s.live, s.next) && OwnerFree(s, o)
    ensures var t := CaptureStep(s, o, arena); PlacesOk(t.owners, t.queue, t.live)
  {
    hide Reserve, Acquire, PlacesOk;
    var t := CaptureStep(s, o, arena);
    if t.live == s.live {
      SamePlacesKeep(s, t);
    } else {
      GrantedPlaces(s, t, if arena then ArenaCredit(Captured(o)) else LeaseCredit(Captured(o)));
    }
  }

  lemma {:induction false} PublishPlaces(s: Sys, o: nat, c: nat, isSealed: bool)
    requires PlacesOk(s.owners, s.queue, s.live) && Enabled(s, Publish(o, c, isSealed))
    ensures var t := PublishStep(s, o, c, isSealed); PlacesOk(t.owners, t.queue, t.live)
  {
    var t := PublishStep(s, o, c, isSealed);
    if c !in t.live {
      SamePlacesKeep(s, t);
    } else {
      forall x | x in t.live ensures Placed(t.owners, t.queue, t.live, x) {
        assert Placed(s.owners, s.queue, s.live, x);
      }
    }
  }

  lemma {:induction false} FinishPlaces(s: Sys, o: nat)
    requires Inv(s) && o < |s.owners| && s.owners[o].busy.Some?
    ensures s.owners[o].busy.value.credit in s.live
    ensures var t := FinishStep(s, o); PlacesOk(t.owners, t.queue, t.live)
  {
    hide BudgetOk, QueueOk, OwnersOk, LogOk;
    FinishFindsRoom(s, o);
    AdmittedPlaces(s, o, s.owners[o].busy.value.count, s.owners[o].busy.value.credit);
  }

  lemma {:induction false} AdmittedPlaces(s: Sys, o: nat, count: nat, c: nat)
    requires PlacesOk(s.owners, s.queue, s.live) && o < |s.owners| && c in s.live
    requires s.owners[o].busy.Some? && s.owners[o].busy.value.credit == c
    ensures var t := Admitted(s, o, count, c); PlacesOk(t.owners, t.queue, t.live)
  {
    var t := Admitted(s, o, count, c);
    forall x | x in t.live ensures Placed(t.owners, t.queue, t.live, x) {
      assert Placed(s.owners, s.queue, s.live, x);
      if x == c {
        assert t.queue[|s.queue|].credit == c;
      } else if s.live[x].place == Queued {
        var i :| 0 <= i < |s.queue| && s.queue[i].credit == x;
        assert t.queue[i].credit == x;
      }
    }
  }

  /** The front leaves the queue, with its credit delivered or returned. */
  lemma {:induction false} FrontPlaces(s: Sys, t: Sys)
    requires PlacesOk(s.owners, s.queue, s.live) && |s.queue| > 0 && t.queue == s.queue[1..] && t.owners == s.owners
    requires forall x :: x in t.live && x != s.queue[0].credit ==> x in s.live && t.live[x] == s.live[x]
    requires s.queue[0].credit in t.live ==> t.live[s.queue[0].credit].place == Delivered
    ensures PlacesOk(t.owners, t.queue, t.live)
  {
    forall x | x in t.live ensures Placed(t.owners, t.queue, t.live, x) {
      if x != s.queue[0].credit {
        assert Placed(s.owners, s.queue, s.live, x);
        if s.live[x].place == Queued {
          var i :| 0 <= i < |s.queue| && s.queue[i].credit == x;
          assert t.queue[i - 1].credit == x;
        }
      }
    }
  }

  lemma {:induction false} StepKeepsPlaces(s: Sys, e: Event)
    requires Inv(s) && Enabled(s, e)
    ensures var t := Step(s, e); PlacesOk(t.owners, t.queue, t.live)
  {
    hide PlacesOk, BudgetOk, QueueOk, OwnersOk, LogOk, ClosedOk, EmitStartStep, CaptureStep, PublishStep, FinishStep;
    match e {
      case EmitStart(o, count, wellFormed) => EmitStartPlaces(s, o, count, wellFormed);
      case Finish(o) => FinishPlaces(s, o);
      case BeginEvaluation(o) => CapturePlaces(s, o, true);
      case LeaseEvaluation(o) => CapturePlaces(s, o, false);
      case Publish(o, c, isSealed) => PublishPlaces(s, o, c, isSealed);
      case Next => FrontPlaces(s, Step(s, e));
      case CloseDrain => FrontPlaces(s, Step(s, e));
      case _ => SamePlacesKeep(s, Step(s, e));
    }
  }

  /** Every step of every interleaving keeps the invariant. */
  lemma {:induction false} StepKeepsInv(s: Sys, e: Event)
    requires Inv(s) && Enabled(s, e)
    ensures Inv(Step(s, e))
  {
    hide Core, PlacesOk, Step;
    StepKeepsCore(s, e);
    StepKeepsPlaces(s, e);
  }
}
