/** The three lanes as an object. Its methods take the steps of the interleaving model. */
module LaneSchedule {
  import opened Common
  import opened LaneQueue
  import opened LaneProtocol

  /** What a lane gives: the bulk lane its oldest metering batch first, any lane its oldest item. */
  predicate Took(name: LaneName, before: seq<Item>, item: Item, after: seq<Item>) {
    && |before| > 0
    && var first := FirstOf(before, Metering);
       var i := if name == Bulk && first < |before| then first else 0;
       item == before[i] && after == RemoveAt(before, i)
  }

  /** Each lane is repeated by its weight. */
  method BuildSchedule() returns (slots: seq<LaneName>)
    ensures |slots| == SLOTS && forall k :: 0 <= k < SLOTS ==> slots[k] == SlotLane(k)
  {
    slots := [];
    for i := 0 to 16
      invariant |slots| == i && forall k :: 0 <= k < i ==> slots[k] == Critical
    {
      slots := slots + [Critical];
    }
    for i := 0 to 8
      invariant |slots| == 16 + i && forall k :: 0 <= k < |slots| ==> slots[k] == SlotLane(k)
    {
      slots := slots + [Control];
    }
    slots := slots + [Bulk];
  }

  class OutboundQueues {
    const critical: Lane
    const control: Lane
    const bulk: Lane
    const schedule: seq<LaneName>
    var cursor: nat

    ghost predicate Valid()
      reads this, critical, control, bulk
    {
      && critical != control && critical != bulk && control != bulk
      && critical.Valid() && control.Valid() && bulk.Valid()
      && |schedule| == SLOTS && (forall k :: 0 <= k < SLOTS ==> schedule[k] == SlotLane(k))
      && cursor < SLOTS
    }

    /** The cursor, the queue lengths and the tokens are as the model has them. */
    ghost predicate Shows(s: Sys)
      reads this, critical, control, bulk
    {
      && s.cursor == cursor
      && s.count == PerLane(|critical.items|, |control.items|, |bulk.items|)
      && s.token == PerLane(critical.notEmpty, control.notEmpty, bulk.notEmpty)
    }

    function LaneOf(name: LaneName): Lane {
      match name
      case Critical => critical
      case Control => control
      case Bulk => bulk
    }

    constructor (criticalLimit: Limit, controlLimit: Limit, bulkLimit: Limit)
      requires criticalLimit.bytes < TWO63 && controlLimit.bytes < TWO63 && bulkLimit.bytes < TWO63
      ensures Valid() && fresh(critical) && fresh(control) && fresh(bulk) && cursor == 0
    {
      hide Orderly;
      var slots := BuildSchedule();
      schedule := slots;
      critical := new Lane(criticalLimit);
      control := new Lane(controlLimit);
      bulk := new Lane(bulkLimit);
      cursor := 0;
    }

    /** Puts a message on the lane of its priority. Metrics never make the producer wait, and
        only metering makes others give way. A queued message is an append and its signal, after
        the evictions it took. */
    method Enqueue(item: Item, priority: LaneName, ghost s: Sys) returns (outcome: Outcome, ghost k: nat, ghost t: Sys)
      requires Valid() && Shows(s)
      modifies critical, control, bulk
      ensures Valid() && Shows(t) && (k > 0 ==> priority == Bulk && item.kind == Metering)
      ensures Leads(s, Repeated(Evicted, k)
          + (if outcome == Queued then [Appended(priority), Signalled(priority)] else []), t)
      ensures priority == Bulk && item.kind == Metrics ==> outcome != Waits
      ensures item.size > LaneOf(priority).limit.bytes ==>
          outcome == if priority == Bulk && item.kind == Metrics then Dropped else QueueFull
      ensures forall name :: name != priority ==>
          LaneOf(name).items == old(LaneOf(name).items) && LaneOf(name).history == old(LaneOf(name).history)
      ensures item.size <= LaneOf(priority).limit.bytes && !(priority == Bulk && item.kind == Metering) ==>
                outcome == if old(LaneOf(priority).closed) then TransportClosed
                           else if Fits(old(LaneOf(priority).items), item, LaneOf(priority).limit) then Queued
                           else if priority == Bulk && item.kind == Metrics then Dropped else Waits
      ensures item.size <= bulk.limit.bytes && priority == Bulk && item.kind == Metering ==>
                outcome == if old(bulk.closed) then TransportClosed
                           else if Fits(Shed(old(bulk.items), MetricsIn(old(bulk.items))), item, bulk.limit) then Queued
                           else Waits
      ensures outcome == Queued <==>
          LaneOf(priority).history.accepted == old(LaneOf(priority).history.accepted) + [item]
      ensures !(priority == Bulk && item.kind == Metering) ==>
          LaneOf(priority).history.evicted == old(LaneOf(priority).history.evicted)
      ensures outcome == Queued ==>
          LaneOf(priority).items != [] && LaneOf(priority).items[|LaneOf(priority).items| - 1] == item
            && LaneOf(priority).notEmpty
    {
      hide Orderly, Shed, MetricsIn, Bytes, Leads, Repeated;
      var lane := LaneOf(priority);
      var dropWhenFull := priority == Bulk && item.kind == Metrics;
      k := 0;
      if item.size > lane.limit.bytes {
        outcome := if dropWhenFull then Dropped else QueueFull;
      } else if item.kind == Metering && priority == Bulk {
        outcome, k := lane.PushMetering(item);
        ShedLength(old(bulk.items), k);
      } else {
        outcome := lane.Push(item, dropWhenFull);
      }
      ghost var events;
      events, t := EnqueueEvents(s, priority, k, outcome == Queued);
    }

    method PopFrom(name: LaneName) returns (item: Option<Item>)
      requires Valid()
      modifies critical, control, bulk
      ensures Valid()
      ensures item.None? <==> old(LaneOf(name).items) == []
      ensures item.Some? ==> Took(name, old(LaneOf(name).items), item.value, LaneOf(name).items)
      ensures item.Some? ==> |LaneOf(name).items| == |old(LaneOf(name).items)| - 1
      ensures item.Some? ==>
          LaneOf(name).history == old(LaneOf(name).history).(sent := old(LaneOf(name).history).sent + [item.value])
      ensures item.None? ==>
          LaneOf(name).items == old(LaneOf(name).items) && LaneOf(name).history == old(LaneOf(name).history)
      ensures LaneOf(name).notEmpty == (old(LaneOf(name).notEmpty) || (item.Some? && LaneOf(name).items != []))
      ensures forall other :: other != name ==>
                && LaneOf(other).items == old(LaneOf(other).items)
                    && LaneOf(other).history == old(LaneOf(other).history)
                && LaneOf(other).notEmpty == old(LaneOf(other).notEmpty)
    {
      hide Orderly;
      if name == Bulk {
        item := bulk.PopMeteringFirst();
      } else {
        item := LaneOf(name).Pop();
      }
    }

    /** The consumer looks at one slot: one step of the model. */
    method Visit(ghost s: Sys) returns (item: Option<Item>)
      requires Valid() && Shows(s) && Enabled(s, Visited)
      modifies this, critical, control, bulk
      ensures Valid() && Shows(Next(s, Visited)) && cursor == (old(cursor) + 1) % SLOTS
      ensures item.Some? <==> Serves(s, Visited).Some?
      ensures var name := SlotLane(old(cursor));
              && (item.None? <==> old(LaneOf(name).items) == [])
              && (item.Some? ==> Took(name, old(LaneOf(name).items), item.value, LaneOf(name).items))
              && (item.Some? ==> LaneOf(name).history ==
                                   old(LaneOf(name).history).(sent := old(LaneOf(name).history).sent + [item.value]))
              && (forall other :: other != name || item.None? ==>
                    LaneOf(other).items == old(LaneOf(other).items)
                        && LaneOf(other).history == old(LaneOf(other).history))
    {
      hide Orderly, Took, Bytes;
      var name := schedule[cursor];
      assert name == SlotLane(cursor);
      cursor := (cursor + 1) % |schedule|;
      item := PopFrom(name);
      assert LaneOf(Critical) == critical && LaneOf(Control) == control && LaneOf(Bulk) == bulk;
    }

    /** One pass over the schedule without interference: visits until one serves. It serves the
        first slot whose lane is not empty, and comes back with nothing only if all lanes are. */
    method Scan(ghost s: Sys) returns (item: Option<Item>, ghost n: nat, ghost t: Sys)
      requires Valid() && Shows(s) && s.consumer == Scanning(0)
      modifies this, critical, control, bulk
      ensures Valid() && Shows(t)
      ensures Leads(s, Repeated(Visited, if item.Some? then n + 1 else SLOTS), t)
      ensures item.None? ==>
          cursor == old(cursor) && (forall name :: old(LaneOf(name).items) == []) && t.consumer == Scanning(SLOTS)
      ensures item.Some? ==>
                && n < SLOTS && cursor == After(old(cursor), n + 1) && t.consumer == Away
                && (forall m: nat :: m < n ==> old(LaneOf(SlotLane(After(cursor, m))).items) == [])
                && var name := SlotLane(After(old(cursor), n));
                   && Took(name, old(LaneOf(name).items), item.value, LaneOf(name).items)
                   && (forall other :: other != name ==> LaneOf(other).items == old(LaneOf(other).items))
                   && LaneOf(name).history ==
                       old(LaneOf(name).history).(sent := old(LaneOf(name).history).sent + [item.value])
    {
      hide Orderly, After, Took, Leads, Repeated;
      item := None;
      ghost var start := cursor;
      AfterTurns(start, 0);
      NoVisits(s);
      n, t := 0, s;
      var visited := 0;
      while visited < |schedule|
        invariant Valid() && Shows(t) && visited == n <= SLOTS && cursor == After(start, n)
        invariant t.consumer == Scanning(n) && Leads(s, Repeated(Visited, n), t)
        invariant forall name :: LaneOf(name).items == old(LaneOf(name).items)
                                 && LaneOf(name).history == old(LaneOf(name).history)
        invariant forall m: nat :: m < n ==> LaneOf(SlotLane(After(start, m))).items == []
      {
        AfterTurns(start, n);
        VisitsOneMore(s, n, t);
        ghost var u := Next(t, Visited);
        item := Visit(t);
        t := u;
        if item.Some? {
          return;
        }
        n, visited := n + 1, visited + 1;
      }
      forall name ensures LaneOf(name).items == [] {
        var m := AnySlot(name, start);
        assert LaneOf(SlotLane(After(start, m))).items == [];
      }
      return None, n, t;
    }
  }

  lemma {:induction false} AfterTurns(start: nat, n: nat)
    requires start < SLOTS && n <= SLOTS
    ensures After(start, n) < SLOTS && (After(start, n) + 1) % SLOTS == After(start, n + 1)
    ensures After(start, 0) == start && After(start, SLOTS) == start
  {
    assert After(start, n) ==
      if start + n < SLOTS then start + n
      else if start + n < 2 * SLOTS then start + n - SLOTS else start + n - 2 * SLOTS;
  }

  /** Every lane has a slot in any full turn. */
  lemma {:induction false} AnySlot(name: LaneName, start: nat) returns (m: nat)
    requires start < SLOTS
    ensures m < SLOTS && SlotLane(After(start, m)) == name
  {
    var slot := SlotOf(name);
    m := if slot >= start then slot - start else slot + SLOTS - start;
    assert After(start, m) == slot;
  }
}
