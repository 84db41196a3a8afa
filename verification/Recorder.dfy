/** The recorder and its owners as objects, with the pool of arenas in a fixed array. A recorder
    method is one critical section of the budget lock, or one operation on the queue; an owner
    method runs under the owner's lock and takes the steps of the model. */
module Recorder {
  import opened Common
  import M = RecorderModel
  import opened RecorderModel
  import opened RecorderInvariant
  import R = RecorderRuns
  import A = RecorderAdmission

  /** Evaluation storage, by identity. */
  type Arena = nat

  class Recorder {
    const limits: Limits
    var records: int
    var bytes: int
    const freeArenas: array<Option<Arena>>
    var freeArenaCount: nat
    var budgetStopped: bool
    var queue: seq<Record>

    function View(): Budget
      reads this
    {
      Budget(records, bytes, freeArenaCount, budgetStopped)
    }

    /** The pool fills the array from the front, and nothing beyond it keeps storage alive. */
    predicate Valid()
      reads this, freeArenas
    {
      && freeArenas.Length == MAX_ARENAS && freeArenaCount <= MAX_ARENAS
      && forall i :: 0 <= i < MAX_ARENAS ==> (freeArenas[i].Some? <==> i < freeArenaCount)
    }

    constructor (limits: Limits)
      ensures Valid() && fresh(freeArenas) && View() == Initial(limits).budget && this.limits == limits && queue == []
    {
      this.limits := limits;
      records, bytes, freeArenaCount, budgetStopped, queue := 0, 0, 0, false, [];
      freeArenas := new Option<Arena>[MAX_ARENAS](_ => None);
    }

    method DropIdleArena()
      requires Valid() && freeArenaCount > 0
      modifies this`bytes, this`freeArenaCount, freeArenas
      ensures Valid()
      ensures View() == old(View()).(idle := old(freeArenaCount) - 1, bytes := old(bytes) - EVALUATION_CHARGE)
    {
      freeArenaCount := freeArenaCount - 1;
      freeArenas[freeArenaCount] := None;
      bytes := bytes - EVALUATION_CHARGE;
    }

    /** Idle arenas yield their bytes to a new reservation, and no more of them than it takes. */
    method EvictEvaluationStorage(charge: nat)
      requires Valid()
      modifies this`bytes, this`freeArenaCount, freeArenas
      ensures Valid() && View() == Evict(limits, old(View()), charge)
    {
      while charge > limits.bytes - bytes && freeArenaCount > 0
        invariant Valid() && Evict(limits, View(), charge) == Evict(limits, old(View()), charge)
        decreases freeArenaCount
      {
        DropIdleArena();
      }
    }

    /** Reserves one record with its charge: granted if it fits beside everything but the idle
        arenas. */
    method ReserveCharge(charge: nat) returns (ok: bool)
      requires Valid()
      modifies this`records, this`bytes, this`freeArenaCount, freeArenas
      ensures Valid() && (ok, View()) == Reserve(limits, old(View()), charge)
      ensures ok <==>
              && !old(budgetStopped) && charge > 0 && old(records) < limits.records
              && old(bytes) - EVALUATION_CHARGE * old(freeArenaCount) + charge <= limits.bytes
    {
      A.EvictIsLeast(limits, View(), charge);
      if budgetStopped || charge == 0 || records >= limits.records {
        return false;
      }
      EvictEvaluationStorage(charge);
      if charge > limits.bytes - bytes {
        return false;
      }
      records, bytes := records + 1, bytes + charge;
      return true;
    }

    method ReleaseCharge(charge: nat)
      requires Valid()
      modifies this`records, this`bytes
      ensures Valid() && View() == Release(old(View()), charge)
    {
      records, bytes := records - 1, bytes - charge;
    }

    /** An idle arena if there is one, else newly charged storage. */
    method AcquireEvaluationStorage(spare: Arena) returns (storage: Option<Arena>)
      requires Valid()
      modifies this`records, this`bytes, this`freeArenaCount, freeArenas
      ensures Valid() && (storage.Some?, View()) == Acquire(limits, old(View()))
      ensures storage.Some? ==>
          storage == if old(freeArenaCount) > 0 then old(freeArenas[freeArenaCount - 1]) else Some(spare)
    {
      if budgetStopped || records >= limits.records {
        return None;
      }
      if freeArenaCount > 0 {
        freeArenaCount := freeArenaCount - 1;
        storage := freeArenas[freeArenaCount];
        freeArenas[freeArenaCount] := None;
        records := records + 1;
        return;
      }
      if EVALUATION_CHARGE > limits.bytes - bytes {
        return None;
      }
      records, bytes := records + 1, bytes + EVALUATION_CHARGE;
      return Some(spare);
    }

    /** Puts storage back into the pool. A live evaluation means that there is a place for it:
        see BudgetConserved. */
    method ReleaseEvaluationStorage(storage: Arena)
      requires Valid() && (!budgetStopped ==> freeArenaCount < MAX_ARENAS)
      modifies this`records, this`bytes, this`freeArenaCount, freeArenas
      ensures Valid() && View() == ReleaseArena(old(View()))
      ensures !budgetStopped ==> freeArenas[old(freeArenaCount)] == Some(storage)
    {
      records := records - 1;
      if budgetStopped {
        bytes := bytes - EVALUATION_CHARGE;
        return;
      }
      freeArenas[freeArenaCount] := Some(storage);
      freeArenaCount := freeArenaCount + 1;
    }

    /** Stops the budget and empties the pool. */
    method CloseEvaluationStorage()
      requires Valid()
      modifies this`bytes, this`freeArenaCount, this`budgetStopped, freeArenas
      ensures Valid() && View() == Stop(old(View()))
    {
      budgetStopped := true;
      while freeArenaCount > 0
        invariant Valid() && budgetStopped
        invariant bytes - EVALUATION_CHARGE * freeArenaCount == old(bytes) - EVALUATION_CHARGE * old(freeArenaCount)
        decreases freeArenaCount
      {
        DropIdleArena();
      }
    }

    /** Sends without waiting: only if the queue has room. */
    method TrySend(record: Record) returns (sent: bool)
      modifies this`queue
      ensures sent <==> |old(queue)| < Capacity(limits)
      ensures queue == if sent then old(queue) + [record] else old(queue)
    {
      sent := |queue| < Capacity(limits);
      if sent {
        queue := queue + [record];
      }
    }

    /** The loop of Close: every queued record gives its credit back. */
    method DrainQueue(ghost s: Sys)
      requires Valid() && Inv(s) && budgetStopped && s.budget == View() && s.queue == queue
      modifies this`records, this`bytes, this`freeArenaCount, this`queue, freeArenas
      ensures Valid() && queue == [] && View() == R.Drain(s).budget
    {
      hide Inv;
      ghost var t := s;
      while |queue| > 0
        invariant Valid() && Inv(t) && t.budget == View() && t.queue == queue && budgetStopped
            && R.Drain(t) == R.Drain(s)
        decreases |queue|
      {
        R.DrainOne(t);
        FrontIsCharged(t);
        var record := queue[0];
        queue := queue[1..];
        if record.arena {
          ReleaseEvaluationStorage(record.credit);
        } else {
          ReleaseCharge(BATCH_CHARGE);
        }
        t := Step(t, CloseDrain);
      }
    }
  }

  /** A queued record says which charge it holds. */
  lemma {:induction false} FrontIsCharged(s: Sys)
    requires Inv(s) && |s.queue| > 0
    ensures s.queue[0].credit in s.live
    ensures s.live[s.queue[0].credit] == if s.queue[0].arena then ArenaCredit(Queued) else BatchCredit(Queued)
  {
  }

  /** A recorder is made only for limits within the fixed bounds and a nonzero identity. */
  method NewRecorder(limits: Limits, process: U64, nonce: U64) returns (r: Option<Recorder>)
    ensures r.Some? <==> process != 0 && nonce != 0 && ValidLimits(limits)
    ensures r.Some? ==>
              fresh(r.value) && r.value.Valid() && r.value.limits == limits && r.value.View() == Initial(limits).budget
  {
    if process == 0 || nonce == 0 || limits.owners < 1 || limits.owners > MAX_OWNERS
      || limits.records < 1 || limits.records > MAX_RECORDS || limits.bytes < BATCH_CHARGE
      || limits.bytes > MAX_QUEUED_BYTES {
      return None;
    }
    var made := new Recorder(limits);
    return Some(made);
  }

  /** What a whole Emit makes of the system when nothing comes between its two steps. */
  function Emitted(s: Sys, o: nat, count: nat, wellFormed: bool): Sys
    requires OwnerFree(s, o)
  {
    var t := Step(s, EmitStart(o, count, wellFormed));
    if t.owners[o].busy.Some? then Step(t, Finish(o)) else t
  }

  /** A captured arena finds a place in the pool. */
  lemma {:induction false} PoolHasRoom(s: Sys, c: nat)
    requires Inv(s) && c in s.live && s.live[c].ArenaCredit?
    ensures s.budget.idle < MAX_ARENAS
  {
    assert c in Evaluations(s.live);
    assert |Evaluations(s.live)| > 0;
  }

  class Owner {
    const id: nat
    const recorder: Recorder
    var sequence: U64
    var valid: bool

    constructor (id: nat, recorder: Recorder)
      ensures this.id == id && this.recorder == recorder && sequence == 0 && valid
    {
      this.id, this.recorder, sequence, valid := id, recorder, 0, true;
    }

    /** This owner and its recorder are as the system has them. */
    ghost predicate Shows(s: Sys)
      reads this, recorder
    {
      && id < |s.owners| && s.owners[id] == M.Owner(sequence, valid, None)
      && s.limits == recorder.limits && s.budget == recorder.View() && s.queue == recorder.queue
    }

    /** The reason sticks: an invalid owner never becomes valid again. */
    method Invalidate()
      modifies this`valid
      ensures !valid
    {
      valid := false;
    }

    /** Admits a batch of events, or invalidates the owner. `credit` is the identity of the
        reservation. */
    method Emit(count: nat, wellFormed: bool, credit: nat, ghost s: Sys) returns (ok: bool)
      requires recorder.Valid() && Inv(s) && Shows(s) && credit == s.next
      modifies this, recorder, recorder.freeArenas
      ensures recorder.Valid() && Shows(Emitted(s, id, count, wellFormed))
      ensures ok <==> old(valid) && valid
      ensures ok ==>
                Emitted(s, id, count, wellFormed).log == s.log + [Record(id, old(sequence) + 1, count, credit, false)]
      ensures !ok ==> Emitted(s, id, count, wellFormed).log == s.log && !valid
      ensures ok <==>
              && old(valid) && wellFormed && 0 < count <= MAX_EVENTS && old(sequence) + count <= U64_MAX
              && A.FitsBeside(s.limits, s.live, BATCH_CHARGE)
    {
      hide Core, PlacesOk, A.FitsBeside, Reserve;
      if valid {
        A.EmitIff(s, id, count, wellFormed);
      }
      ghost var t := Step(s, EmitStart(id, count, wellFormed));
      assert Enabled(s, EmitStart(id, count, wellFormed));
      StepKeepsInv(s, EmitStart(id, count, wellFormed));
      if t.owners[id].busy.Some? {
        FinishFindsRoom(t, id);
      }
      if !valid {
        return false;
      }
      if count == 0 || count > MAX_EVENTS || !wellFormed {
        Invalidate();
        return false;
      }
      if sequence > U64_MAX - count {
        Invalidate();
        return false;
      }
      var reserved := recorder.ReserveCharge(BATCH_CHARGE);
      if !reserved {
        Invalidate();
        return false;
      }
      var sent := recorder.TrySend(Record(id, sequence + 1, count, credit, false));
      if !sent {
        // The reservation implies room, so the branch for a full queue is never taken.
        assert false;
      }
      sequence := sequence + count;
      return true;
    }

    /** The evaluation and its owner are as the system of its recorder has them, which is this
        owner's own unless it belongs to another recorder. */
    ghost predicate Presents(e: Evaluation, s: Sys, r: Sys)
      reads this, e, e.owner, e.owner.recorder
    {
      && e.owner.Shows(r) && e.Shows(r)
      && (e.owner.recorder == recorder ==> r == s && (e.owner.id == id ==> e.owner == this))
      && (e.owner.recorder != recorder ==> e.owner.recorder.freeArenas != recorder.freeArenas)
    }

    /** Turns a publication down that is not this owner's, not sealed, or of a loan that is gone. */
    method TurnDown(e: Evaluation)
      requires e.owner.recorder.Valid()
      requires !e.published && !e.released ==> e.owner.recorder.freeArenaCount < MAX_ARENAS
      modifies this`valid, e.owner`valid, e`released, e.owner.recorder`records, e.owner.recorder`bytes
      modifies e.owner.recorder`freeArenaCount, e.owner.recorder.freeArenas
      ensures e.owner.recorder.Valid() && !valid && !e.owner.valid && (e.published || e.released)
      ensures e.owner.recorder.View() ==
                if old(e.published || e.released) then old(e.owner.recorder.View())
                else ReleaseArena(old(e.owner.recorder.View()))
    {
      Invalidate();
      e.owner.Invalidate();
      if !e.published {
        e.Release();
      }
    }

    method TurnDownHere(e: Evaluation, ghost s: Sys)
      requires recorder.Valid() && Shows(s) && e.owner.recorder == recorder && Presents(e, s, s)
      requires e.owner != this || !e.isSealed || e.published || e.released
      requires !e.published && !e.released ==> s.budget.idle < MAX_ARENAS
      modifies this, e.owner, e, recorder, recorder.freeArenas
      ensures recorder.Valid() && !valid && !e.owner.valid && (old(e.published) || e.released)
      ensures var t := Published(s, id, e.owner.id, e.credit, old(e.isSealed), old(e.published || e.released));
              Shows(t) && e.owner.Shows(t) && e.Shows(t) && t.log == s.log
    {
      hide Published, ReleaseArena;
      TurnedDownMeans(s, id, e.owner.id, e.credit, e.isSealed, e.published || e.released);
      TurnDown(e);
    }

    /** The same for an evaluation of another recorder: its loan comes back there. */
    method TurnDownElsewhere(e: Evaluation, ghost s: Sys, ghost r: Sys)
      requires recorder.Valid() && Shows(s) && e.owner.recorder != recorder && Presents(e, s, r)
      requires e.owner.recorder.Valid() && (!e.published && !e.released ==> r.budget.idle < MAX_ARENAS)
      modifies this, e.owner, e, e.owner.recorder, e.owner.recorder.freeArenas
      ensures recorder.Valid() && e.owner.recorder.Valid()
      ensures !valid && !e.owner.valid && (old(e.published) || e.released)
      ensures var t := Refused(r, e.owner.id, e.credit, old(e.published || e.released));
              Shows(Step(s, M.Invalidate(id))) && e.owner.Shows(t) && e.Shows(t)
    {
      hide Refused, ReleaseArena, Step;
      RefusedMeans(r, e.owner.id, e.credit, e.published || e.released);
      InvalidateMeans(s, id);
      TurnDown(e);
    }

    /** Publishes a sealed evaluation of its own that is still lent, or turns it down: then the
        owners involved are invalid, and storage that was still lent is back with its recorder. */
    method PublishEvaluation(e: Evaluation, ghost s: Sys, ghost r: Sys) returns (ok: bool)
      requires recorder.Valid() && Inv(s) && Shows(s)
      requires e.owner.recorder.Valid() && Inv(r) && Presents(e, s, r)
      modifies this, e.owner, e, recorder, recorder.freeArenas, e.owner.recorder, e.owner.recorder.freeArenas
      ensures recorder.Valid() && e.owner.recorder.Valid()
      ensures e.owner.recorder == recorder ==>
                var t := Published(s, id, e.owner.id, e.credit, old(e.isSealed), old(e.published || e.released));
                && Shows(t) && e.owner.Shows(t) && e.Shows(t)
                && t.log == if ok then s.log + [Record(id, old(sequence) + 1, 1, e.credit, true)] else s.log
      ensures e.owner.recorder != recorder ==>
                var t := Refused(r, e.owner.id, e.credit, old(e.published || e.released));
                Shows(Step(s, M.Invalidate(id))) && e.owner.Shows(t) && e.Shows(t)
      ensures ok <==> e.owner == this && old(e.isSealed && !e.published && !e.released && valid && sequence < U64_MAX)
      ensures ok ==> e.published && !e.released && valid
      ensures !ok ==> !valid && !e.owner.valid && (old(e.published) || e.released)
    {
      hide Inv, Step, Published, Refused, ReleaseArena;
      if !e.published && !e.released {
        PoolHasRoom(r, e.credit);
      }
      if e.owner != this || !e.isSealed || e.published || e.released {
        if e.owner.recorder == recorder {
          TurnDownHere(e, s);
        } else {
          TurnDownElsewhere(e, s, r);
        }
        ok := false;
      } else {
        ok := PublishOwn(e, s);
      }
    }

    /** Publishes a sealed evaluation of its own that is still lent. */
    method PublishOwn(e: Evaluation, ghost s: Sys) returns (ok: bool)
      requires recorder.Valid() && Inv(s) && Shows(s) && e.owner == this && e.Shows(s)
      requires e.isSealed && !e.published && !e.released
      modifies this, e, recorder, recorder.freeArenas
      ensures recorder.Valid()
      ensures var t := Published(s, id, id, e.credit, true, false);
              && Shows(t) && e.Shows(t)
              && t.log == if ok then s.log + [Record(id, old(sequence) + 1, 1, e.credit, true)] else s.log
      ensures ok <==> old(valid && sequence < U64_MAX)
      ensures ok ==> e.published && !e.released && valid
      ensures !ok ==> !valid && e.released
    {
      hide Inv, Capacity, Published, Step, ReleaseArena;
      PoolHasRoom(s, e.credit);
      OwnMeans(s, id, e.credit);
      if !valid {
        e.Release();
        return false;
      }
      if sequence == U64_MAX {
        Invalidate();
        e.Release();
        return false;
      }
      e.published := true;
      var sent := recorder.TrySend(Record(id, sequence + 1, 1, e.credit, true));
      if !sent {
        // The captured evaluation implies room, so this branch is never taken either.
        assert false;
      }
      sequence := sequence + 1;
      return true;
    }
  }

  /** One loan of evaluation storage. A fresh handle is made for each. */
  class Evaluation {
    const owner: Owner
    const credit: nat
    const storage: Arena
    var isSealed: bool
    var published: bool
    var released: bool

    constructor (owner: Owner, credit: nat, storage: Arena)
      ensures this.owner == owner && this.credit == credit && this.storage == storage && !isSealed && !published
          && !released
    {
      this.owner, this.credit, this.storage, isSealed, published, released :=
          owner, credit, storage, false, false, false;
    }

    /** While it is neither published nor released, it holds its owner's captured credit. */
    ghost predicate Shows(s: Sys)
      reads this
    {
      !published && !released ==> credit in s.live && s.live[credit] == ArenaCredit(Captured(owner.id))
    }

    /** Returns the storage once: a second release changes nothing. A release before publication
        invalidates the owner. */
    method Release()
      requires owner.recorder.Valid()
          && (!released && !owner.recorder.budgetStopped ==> owner.recorder.freeArenaCount < MAX_ARENAS)
      modifies this`released, owner`valid,
        owner.recorder`records, owner.recorder`bytes, owner.recorder`freeArenaCount, owner.recorder.freeArenas
      ensures owner.recorder.Valid() && released
      ensures owner.recorder.View() == if old(released) then old(owner.recorder.View())
                                       else ReleaseArena(old(owner.recorder.View()))
      ensures owner.valid == (old(owner.valid) && (published || old(released)))
    {
      if !published && !released {
        owner.Invalidate();
      }
      if !released {
        released := true;
        owner.recorder.ReleaseEvaluationStorage(storage);
      }
    }
  }

  /** What a whole publication makes of the system when nothing comes between its steps; a loan
      that is gone already only invalidates the owners. */
  function Published(s: Sys, o: nat, holder: nat, c: nat, isSealed: bool, gone: bool): Sys
    requires OwnerFree(s, o) && holder < |s.owners|
    requires !gone ==> c in s.live && s.live[c] == ArenaCredit(Captured(holder))
  {
    if gone then Step(Step(s, M.Invalidate(o)), M.Invalidate(holder))
    else
      var t := Step(s, Publish(o, c, isSealed));
      if t.owners[o].busy.Some? then Step(t, Finish(o)) else t
  }

  /** What a publication by an owner of another recorder does: the loan comes back, and its owner is
      invalid. */
  function Refused(r: Sys, holder: nat, c: nat, gone: bool): Sys
    requires holder < |r.owners| && (!gone ==> c in r.live && r.live[c] == ArenaCredit(Captured(holder)))
  {
    Step(r, if gone then M.Invalidate(holder) else Discard(c))
  }

  /** Two owners invalid, and a loan back unless it is gone. */
  predicate Settles(s: Sys, o: nat, holder: nat, gone: bool, t: Sys)
    requires o < |s.owners| && holder < |s.owners|
  {
    && t.limits == s.limits && t.queue == s.queue && t.log == s.log && |t.owners| == |s.owners|
    && t.budget == (if gone then s.budget else ReleaseArena(s.budget))
    && t.owners[o] == s.owners[o].(valid := false) && t.owners[holder] == s.owners[holder].(valid := false)
  }

  lemma {:induction false} TurnedDownMeans(s: Sys, o: nat, holder: nat, c: nat, isSealed: bool, gone: bool)
    requires OwnerFree(s, o) && holder < |s.owners| && (holder != o || !isSealed || gone)
    requires !gone ==> c in s.live && s.live[c] == ArenaCredit(Captured(holder))
    ensures Settles(s, o, holder, gone, Published(s, o, holder, c, isSealed, gone))
  {
    hide ReleaseArena;
  }

  lemma {:induction false} RefusedMeans(r: Sys, holder: nat, c: nat, gone: bool)
    requires holder < |r.owners| && (!gone ==> c in r.live && r.live[c] == ArenaCredit(Captured(holder)))
    ensures Settles(r, holder, holder, gone, Refused(r, holder, c, gone))
  {
    hide ReleaseArena;
  }

  /** The record is queued under the next sequence. */
  predicate Queues(s: Sys, o: nat, c: nat, t: Sys)
    requires o < |s.owners|
  {
    var record := Record(o, s.owners[o].sequence + 1, 1, c, true);
    && t.limits == s.limits && t.budget == s.budget && |t.owners| == |s.owners|
    && t.queue == s.queue + [record] && t.log == s.log + [record]
    && t.owners[o] == s.owners[o].(sequence := s.owners[o].sequence + 1)
  }

  lemma {:induction false} OwnMeans(s: Sys, o: nat, c: nat)
    requires Inv(s) && OwnerFree(s, o) && c in s.live && s.live[c] == ArenaCredit(Captured(o))
    ensures |s.queue| < Capacity(s.limits)
    ensures var t := Published(s, o, o, c, true, false);
            if s.owners[o].valid && s.owners[o].sequence < U64_MAX then Queues(s, o, c, t)
            else Settles(s, o, o, false, t)
  {
    PublishingFindsRoom(s, o, c, true);
    assert s.owners[o].sequence <= U64_MAX;
    hide Inv, ReleaseArena, Capacity;
  }

  lemma {:induction false} InvalidateMeans(s: Sys, o: nat)
    requires o < |s.owners|
    ensures Step(s, M.Invalidate(o)) == Invalidated(s, o)
  {
  }

  /** A publication that gets to its queue send finds room. */
  lemma {:induction false} PublishingFindsRoom(s: Sys, o: nat, c: nat, isSealed: bool)
    requires Inv(s) && OwnerFree(s, o) && Enabled(s, Publish(o, c, isSealed))
    ensures |s.queue| < Capacity(s.limits)
  {
    CreditMeansRoom(s, c);
  }
}
