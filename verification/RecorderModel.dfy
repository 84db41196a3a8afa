/** The observation recorder: a budget shared by concurrent producers, a pool of arenas that
    stay charged while idle, a bounded queue, and per-owner sequences. */
module RecorderModel {
  import opened Common

  const MAX_EVENTS: nat := 4
  const MAX_OWNERS: nat := 128
  const MAX_RECORDS: nat := 4096
  const MAX_QUEUED_BYTES: nat := 67_108_864
  const BATCH_CHARGE: nat := 8192
  const EVALUATION_CHARGE: nat := 1_048_576
  const MAX_ARENAS: nat := MAX_QUEUED_BYTES / EVALUATION_CHARGE

  datatype Limits = Limits(owners: nat, records: nat, bytes: nat)

  predicate ValidLimits(l: Limits) {
    && 1 <= l.owners <= MAX_OWNERS && 1 <= l.records <= MAX_RECORDS
    && BATCH_CHARGE <= l.bytes <= MAX_QUEUED_BYTES
  }

  function Capacity(l: Limits): nat {
    Min(l.records, l.bytes / BATCH_CHARGE)
  }

  // ------------------------------------------------------------------ budget

  /** The counters behind the budget lock. */
  datatype Budget = Budget(records: int, bytes: int, idle: nat, stopped: bool)

  /** Gives the bytes of idle arenas back until the charge fits or none is idle. */
  function Evict(l: Limits, b: Budget, charge: nat): Budget
    decreases b.idle
  {
    if charge > l.bytes - b.bytes
        && b.idle > 0 then Evict(l, b.(idle := b.idle - 1, bytes := b.bytes - EVALUATION_CHARGE), charge)
    else b
  }

  function Reserve(l: Limits, b: Budget, charge: nat): (bool, Budget) {
    if b.stopped || charge == 0 || b.records >= l.records then (false, b)
    else
      var e := Evict(l, b, charge);
      if charge > l.bytes - e.bytes then (false, e)
      else (true, e.(records := e.records + 1, bytes := e.bytes + charge))
  }

  function Acquire(l: Limits, b: Budget): (bool, Budget) {
    if b.stopped || b.records >= l.records then (false, b)
    else if b.idle > 0 then (true, b.(idle := b.idle - 1, records := b.records + 1))
    else if EVALUATION_CHARGE > l.bytes - b.bytes then (false, b)
    else (true, b.(records := b.records + 1, bytes := b.bytes + EVALUATION_CHARGE))
  }

  function Release(b: Budget, charge: nat): Budget {
    b.(records := b.records - 1, bytes := b.bytes - charge)
  }

  function ReleaseArena(b: Budget): Budget {
    if b.stopped then b.(records := b.records - 1, bytes := b.bytes - EVALUATION_CHARGE)
    else b.(records := b.records - 1, idle := b.idle + 1)
  }

  function Stop(b: Budget): Budget {
    b.(stopped := true, idle := 0, bytes := b.bytes - EVALUATION_CHARGE * b.idle)
  }

  // ------------------------------------------------------------------ system

  /** Where a credit is: with a producer about to queue it, with a capture, queued, or delivered. */
  datatype Place = Reserved(owner: nat) | Captured(owner: nat) | Queued | Delivered

  /** A credit for a batch, for a lease without storage, or for pooled evaluation storage. */
  datatype Credit = BatchCredit(place: Place) | LeaseCredit(place: Place) | ArenaCredit(place: Place)

  function Charge(c: Credit): nat {
    if c.BatchCredit? then BATCH_CHARGE else EVALUATION_CHARGE
  }

  /** `arena` says that the record carries an evaluation. */
  datatype Record = Record(owner: nat, sequence: nat, count: nat, credit: nat, arena: bool)

  datatype Pending = Pending(count: nat, credit: nat)

  /** One producer: its sequence, whether it is still valid, and an Emit or a publication that
      holds the owner's lock and is about to send to the queue. */
  datatype Owner = Owner(sequence: nat, valid: bool, busy: Option<Pending>)

  /** `log` remembers every record that was ever queued. */
  datatype Sys = Sys(
    limits: Limits, owners: seq<Owner>, queue: seq<Record>, live: map<nat, Credit>, budget: Budget,
    closed: bool, next: nat, log: seq<Record>)

  datatype Event =
    | NewOwner
    | EmitStart(owner: nat, count: nat, wellFormed: bool)
    | Finish(owner: nat)
    | BeginEvaluation(owner: nat)
    | LeaseEvaluation(owner: nat)
    | Publish(owner: nat, credit: nat, isSealed: bool)
    | Discard(credit: nat)
    | Next
    | ReleaseDelivery(credit: nat)
    | Invalidate(owner: nat)
    | CloseFence
    | CloseStop
    | CloseDrain

  function Initial(l: Limits): Sys {
    Sys(l, [], [], map[], Budget(0, 0, 0, false), false, 0, [])
  }

  predicate OwnerFree(s: Sys, o: nat) {
    o < |s.owners| && s.owners[o].busy.None?
  }

  /** One operation at a time holds an owner's lock. A publication of an unsealed evaluation, or
      of another owner's, is turned down without it. Close joins every owner before it stops
      the budget, and drains after that. */
  predicate Enabled(s: Sys, e: Event) {
    match e
    case NewOwner => true
    case EmitStart(o, _, _) => OwnerFree(s, o)
    case Finish(o) => o < |s.owners| && s.owners[o].busy.Some? && s.owners[o].busy.value.credit in s.live
    case BeginEvaluation(o) => OwnerFree(s, o)
    case LeaseEvaluation(o) => OwnerFree(s, o)
    case Publish(o, c, isSealed) =>
      && o < |s.owners| && c in s.live && s.live[c].ArenaCredit? && s.live[c].place.Captured?
          && s.live[c].place.owner < |s.owners|
      && (s.live[c].place.owner == o && isSealed ==> OwnerFree(s, o))
    case Discard(c) => c in s.live && !s.live[c].BatchCredit? && s.live[c].place.Captured?
        && s.live[c].place.owner < |s.owners|
    case Next => |s.queue| > 0 && s.queue[0].credit in s.live
    case ReleaseDelivery(c) => c in s.live && s.live[c].place == Delivered
    case Invalidate(o) => o < |s.owners|
    case CloseFence => true
    case CloseStop => s.closed && forall o :: 0 <= o < |s.owners| ==> s.owners[o].busy.None?
    case CloseDrain => s.budget.stopped && |s.queue| > 0 && s.queue[0].credit in s.live
  }

  // ------------------------------------------------------------------- steps

  function Invalidated(s: Sys, o: nat): Sys
    requires o < |s.owners|
  {
    s.(owners := s.owners[o := s.owners[o].(valid := false)])
  }

  function InvalidatedAll(owners: seq<Owner>): seq<Owner> {
    seq(|owners|, o requires 0 <= o < |owners| => owners[o].(valid := false))
  }

  /** Returns the credit, to the pool if it is an arena. */
  function Returned(s: Sys, c: nat): Sys
    requires c in s.live
  {
    s.(live := s.live - {c},
       budget := if s.live[c].ArenaCredit? then ReleaseArena(s.budget) else Release(s.budget, Charge(s.live[c])))
  }

  /** A new credit under the next identity. */
  function Granted(s: Sys, b: Budget, credit: Credit): Sys {
    s.(budget := b, live := s.live[s.next := credit], next := s.next + 1)
  }

  function EmitStartStep(s: Sys, o: nat, count: nat, wellFormed: bool): Sys
    requires o < |s.owners|
  {
    if !s.owners[o].valid then s
    else if count == 0 || count > MAX_EVENTS || !wellFormed then Invalidated(s, o)
    else if s.owners[o].sequence > U64_MAX - count then Invalidated(s, o)
    else
      var (ok, b) := Reserve(s.limits, s.budget, BATCH_CHARGE);
      if !ok then Invalidated(s.(budget := b), o)
      else
        Granted(s, b, BatchCredit(Reserved(o))).(owners :=
            s.owners[o := s.owners[o].(busy := Some(Pending(count, s.next)))])
  }

  /** The record is queued and the owner's sequence moves past its events. */
  function Admitted(s: Sys, o: nat, count: nat, c: nat): Sys
    requires o < |s.owners| && c in s.live
  {
    var record := Record(o, s.owners[o].sequence + 1, count, c, s.live[c].ArenaCredit?);
    s.(queue := s.queue + [record], log := s.log + [record],
       live := s.live[c := s.live[c].(place := Queued)],
       owners := s.owners[o := s.owners[o].(sequence := s.owners[o].sequence + count, busy := None)])
  }

  /** The queue send that ends an Emit or a publication. */
  function FinishStep(s: Sys, o: nat): Sys
    requires o < |s.owners| && s.owners[o].busy.Some? && s.owners[o].busy.value.credit in s.live
  {
    var p := s.owners[o].busy.value;
    if |s.queue| < Capacity(s.limits) then Admitted(s, o, p.count, p.credit)
    else Invalidated(Returned(s, p.credit).(owners := s.owners[o := s.owners[o].(busy := None)]), o)
  }

  /** A capture reserves before it copies anything, with or without pooled storage. */
  function CaptureStep(s: Sys, o: nat, arena: bool): Sys
    requires o < |s.owners|
  {
    if !s.owners[o].valid then s
    else
      var (ok, b) := if arena then Acquire(s.limits, s.budget) else Reserve(s.limits, s.budget, EVALUATION_CHARGE);
      if ok then Granted(s, b, if arena then ArenaCredit(Captured(o)) else LeaseCredit(Captured(o)))
      else Invalidated(s.(budget := b), o)
  }

  function PublishStep(s: Sys, o: nat, c: nat, isSealed: bool): Sys
    requires o < |s.owners| && c in s.live && s.live[c].place.Captured? && s.live[c].place.owner < |s.owners|
  {
    var holder := s.live[c].place.owner;
    if holder != o || !isSealed then Returned(Invalidated(Invalidated(s, o), holder), c)
    else if !s.owners[o].valid then Returned(s, c)
    else if s.owners[o].sequence == U64_MAX then Returned(Invalidated(s, o), c)
    else
      s.(live := s.live[c := s.live[c].(place := Reserved(o))],
         owners := s.owners[o := s.owners[o].(busy := Some(Pending(1, c)))])
  }

  function Step(s: Sys, e: Event): Sys
    requires Enabled(s, e)
  {
    match e
    case NewOwner =>
      if s.closed then s
      else if |s.owners| >= s.limits.owners then s.(closed := true, owners := InvalidatedAll(s.owners))
      else s.(owners := s.owners + [Owner(0, true, None)])
    case EmitStart(o, count, wellFormed) => EmitStartStep(s, o, count, wellFormed)
    case Finish(o) => FinishStep(s, o)
    case BeginEvaluation(o) => CaptureStep(s, o, true)
    case LeaseEvaluation(o) => CaptureStep(s, o, false)
    case Publish(o, c, isSealed) => PublishStep(s, o, c, isSealed)
    case Discard(c) =>
      Returned(if s.live[c].ArenaCredit? then Invalidated(s, s.live[c].place.owner) else s, c)
    case Next =>
      var c := s.queue[0].credit;
      s.(queue := s.queue[1..], live := s.live[c := s.live[c].(place := Delivered)])
    case ReleaseDelivery(c) => Returned(s, c)
    case Invalidate(o) => Invalidated(s, o)
    case CloseFence => s.(closed := true, owners := InvalidatedAll(s.owners))
    case CloseStop => s.(budget := Stop(s.budget))
    case CloseDrain => Returned(s.(queue := s.queue[1..]), s.queue[0].credit)
  }
}
