/** The weighted schedule over the three lanes, with producers and the consumer interleaved:
    nothing starves and no wakeup is lost. */
module LaneProtocol {
  import opened Common

  datatype LaneName = Critical | Control | Bulk

  const SLOTS: nat := 25

  /** Sixteen critical slots, eight control slots, one bulk slot. */
  function SlotLane(k: nat): LaneName {
    if k < 16 then Critical else if k < 24 then Control else Bulk
  }

  /** The slot m places after another, around the schedule. */
  function After(slot: nat, m: nat): nat {
    (slot + m) % SLOTS
  }

  /** The slot visited n places before the cursor got here. */
  function Before(cursor: nat, n: nat): nat
    requires n < SLOTS
  {
    (cursor + SLOTS - 1 - n) % SLOTS
  }

  function SlotOf(name: LaneName): (k: nat)
    ensures k < SLOTS && SlotLane(k) == name
  {
    match name
    case Critical => 0
    case Control => 16
    case Bulk => 24
  }

  // ------------------------------------------------------------ interleaving

  /** The consumer is elsewhere, has visited some slots of a scan in vain, or waits. */
  datatype Consumer = Away | Scanning(visited: nat) | Waiting

  datatype PerLane<T> = PerLane(critical: T, control: T, bulk: T)

  function Get<T>(p: PerLane<T>, l: LaneName): T {
    match l
    case Critical => p.critical
    case Control => p.control
    case Bulk => p.bulk
  }

  function Set<T>(p: PerLane<T>, l: LaneName, v: T): PerLane<T> {
    match l
    case Critical => p.(critical := v)
    case Control => p.(control := v)
    case Bulk => p.(bulk := v)
  }

  /** Queue lengths, wakeup tokens, producers that appended but did not signal yet. */
  datatype Sys = Sys(cursor: nat, count: PerLane<nat>, token: PerLane<bool>, pending: PerLane<nat>, consumer: Consumer)

  datatype Event =
    Appended(lane: LaneName) | Signalled(lane: LaneName) | Evicted | Entered | Visited
    | Blocked | Woken(lane: LaneName) | Left

  predicate Enabled(s: Sys, e: Event) {
    match e
    case Appended(_) => true
    case Signalled(l) => Get(s.pending, l) > 0
    case Evicted => Get(s.count, Bulk) > 0
    case Entered => s.consumer == Away
    case Visited => s.consumer.Scanning? && s.consumer.visited < SLOTS
    case Blocked => s.consumer == Scanning(SLOTS)
    case Woken(l) => s.consumer == Waiting && Get(s.token, l)
    case Left => s.consumer == Waiting
  }

  /** The lane that this event takes a message from. */
  function Serves(s: Sys, e: Event): Option<LaneName> {
    if e.Visited? && Get(s.count, SlotLane(s.cursor)) > 0 then Some(SlotLane(s.cursor)) else None
  }

  function VisitStep(s: Sys): Sys
    requires s.consumer.Scanning?
  {
    var l := SlotLane(s.cursor);
    var moved := s.(cursor := (s.cursor + 1) % SLOTS);
    if Get(s.count, l) == 0 then moved.(consumer := Scanning(s.consumer.visited + 1))
    else moved.(count := Set(s.count, l, Get(s.count, l) - 1),
                 token := Set(s.token, l, Get(s.token, l) || Get(s.count, l) > 1), consumer := Away)
  }

  function Next(s: Sys, e: Event): Sys
    requires Enabled(s, e)
  {
    match e
    case Appended(l) =>
      s.(count := Set(s.count, l, Get(s.count, l) + 1), pending := Set(s.pending, l, Get(s.pending, l) + 1))
    case Signalled(l) => s.(pending := Set(s.pending, l, Get(s.pending, l) - 1), token := Set(s.token, l, true))
    case Evicted => s.(count := Set(s.count, Bulk, Get(s.count, Bulk) - 1))
    case Entered => s.(consumer := Scanning(0))
    case Visited => VisitStep(s)
    case Blocked => s.(consumer := Waiting)
    case Woken(l) => s.(token := Set(s.token, l, false), consumer := Scanning(0))
    case Left => s.(consumer := Away)
  }

  function Initial(): Sys {
    Sys(0, PerLane(0, 0, 0), PerLane(false, false, false), PerLane(0, 0, 0), Away)
  }

  ghost predicate Run(states: seq<Sys>, events: seq<Event>) {
    && |states| == |events| + 1
    && forall k :: 0 <= k < |events| ==> Enabled(states[k], events[k]) && states[k + 1] == Next(states[k], events[k])
  }

  /** A sequence of enabled events leads from one state to another. */
  ghost predicate Leads(s: Sys, events: seq<Event>, t: Sys)
    decreases |events|
  {
    if events == [] then t == s else Enabled(s, events[0]) && Leads(Next(s, events[0]), events[1..], t)
  }

  lemma {:induction false} LeadsSnoc(s: Sys, events: seq<Event>, t: Sys, e: Event)
    requires Leads(s, events, t) && Enabled(t, e)
    ensures Leads(s, events + [e], Next(t, e))
    decreases |events|
  {
    hide Enabled, Next;
    if events == [] {
      assert [] + [e] == [e] && [e][1..] == [];
    } else {
      LeadsSnoc(Next(s, events[0]), events[1..], t, e);
      assert (events + [e])[1..] == events[1..] + [e];
    }
  }

  function Repeated(e: Event, k: nat): seq<Event> {
    seq(k, _ => e)
  }

  /** As many evictions as there are messages to evict. */
  lemma {:induction false} EvictMany(s: Sys, k: nat)
    requires k <= s.count.bulk
    ensures Leads(s, Repeated(Evicted, k), s.(count := s.count.(bulk := s.count.bulk - k)))
    decreases k
  {
    if k > 0 {
      EvictMany(s, k - 1);
      LeadsSnoc(s, Repeated(Evicted, k - 1), s.(count := s.count.(bulk := s.count.bulk - (k - 1))), Evicted);
      assert Repeated(Evicted, k - 1) + [Evicted] == Repeated(Evicted, k);
    }
  }

  lemma {:induction false} NoVisits(s: Sys)
    ensures Leads(s, Repeated(Visited, 0), s)
  {
  }

  lemma {:induction false} VisitsOneMore(s: Sys, n: nat, t: Sys)
    requires Leads(s, Repeated(Visited, n), t) && Enabled(t, Visited)
    ensures Leads(s, Repeated(Visited, n + 1), Next(t, Visited))
  {
    LeadsSnoc(s, Repeated(Visited, n), t, Visited);
    assert Repeated(Visited, n) + [Visited] == Repeated(Visited, n + 1);
  }

  /** What an attempt to enqueue does: evictions, then the append and its signal. */
  lemma {:induction false} EnqueueEvents(s: Sys, l: LaneName, k: nat, queued: bool) returns (events: seq<Event>, t: Sys)
    requires k <= s.count.bulk
    ensures Leads(s, events, t) && events == Repeated(Evicted, k) + (if queued then [Appended(l), Signalled(l)] else [])
    ensures var left := s.(count := s.count.(bulk := s.count.bulk - k));
            t == if queued
                 then left.(count := Set(left.count, l, Get(left.count, l) + 1), token := Set(s.token, l, true))
                 else left
  {
    EvictMany(s, k);
    var left := s.(count := s.count.(bulk := s.count.bulk - k));
    if !queued {
      assert Repeated(Evicted, k) + [] == Repeated(Evicted, k);
      return Repeated(Evicted, k), left;
    }
    LeadsSnoc(s, Repeated(Evicted, k), left, Appended(l));
    LeadsSnoc(s, Repeated(Evicted, k) + [Appended(l)], Next(left, Appended(l)), Signalled(l));
    events, t := Repeated(Evicted, k) + [Appended(l), Signalled(l)], Next(Next(left, Appended(l)), Signalled(l));
    assert events == Repeated(Evicted, k) + [Appended(l)] + [Signalled(l)];
  }

  // ----------------------------------------------------------------- wakeups

  /** One of the last k slots visited belongs to the lane. */
  predicate Seen(l: LaneName, cursor: nat, k: nat) {
    exists n: nat :: n < k && n < SLOTS && SlotLane(Before(cursor, n)) == l
  }

  /** A message on this lane has a token, or a producer about to leave one. */
  predicate Announced(s: Sys, l: LaneName) {
    Get(s.count, l) > 0 ==> Get(s.token, l) || Get(s.pending, l) > 0
  }

  /** Lanes that the consumer will not look at again before it waits are announced. */
  ghost predicate WakeInv(s: Sys) {
    && s.cursor < SLOTS
    && (s.consumer.Scanning? ==> s.consumer.visited <= SLOTS && forall l :: Seen(l, s.cursor, s.consumer.visited) ==>
        Announced(s, l))
    && (s.consumer == Waiting ==> forall l :: Announced(s, l))
  }

  lemma {:induction false} OneSlotOn(cursor: nat, n: nat)
    requires cursor < SLOTS && n < SLOTS
    ensures Before((cursor + 1) % SLOTS, n) == if n > 0 then Before(cursor, n - 1) else cursor
  {
    if cursor == SLOTS - 1 {
      assert (cursor + 1) % SLOTS == 0;
    }
  }

  lemma {:induction false} SeenBefore(l: LaneName, cursor: nat, k: nat)
    requires cursor < SLOTS && k < SLOTS && Seen(l, (cursor + 1) % SLOTS, k + 1)
    ensures l == SlotLane(cursor) || Seen(l, cursor, k)
  {
    var c := (cursor + 1) % SLOTS;
    hide SlotLane, Before;
    var n: nat :| n < k + 1 && n < SLOTS && SlotLane(Before(c, n)) == l;
    OneSlotOn(cursor, n);
  }

  lemma {:induction false} FullTurnSeesAll(l: LaneName, cursor: nat)
    requires cursor < SLOTS
    ensures Seen(l, cursor, SLOTS)
  {
    var slot := SlotOf(l);
    var n := if slot < cursor then cursor - 1 - slot else cursor + SLOTS - 1 - slot;
    assert Before(cursor, n) == slot;
  }

  lemma {:induction false} StepKeepsWakeInv(s: Sys, e: Event)
    requires WakeInv(s) && Enabled(s, e)
    ensures WakeInv(Next(s, e))
  {
    var t := Next(s, e);
    match e {
      case Visited =>
        if t.consumer.Scanning? {
          forall l | Seen(l, t.cursor, t.consumer.visited) ensures Announced(t, l) {
            SeenBefore(l, s.cursor, s.consumer.visited);
          }
        }
      case Blocked =>
        forall l ensures Announced(t, l) {
          FullTurnSeesAll(l, s.cursor);
        }
      case Appended(_) =>
        assert forall l :: Announced(s, l) ==> Announced(t, l);
      case Signalled(_) =>
        assert forall l :: Announced(s, l) ==> Announced(t, l);
      case Evicted =>
        assert forall l :: Announced(s, l) ==> Announced(t, l);
      case Entered =>
      case Woken(_) =>
      case Left =>
    }
  }

  /** No wakeup is lost: whenever the consumer waits and a message is queued, a token for its
      lane is there, or a producer is about to signal one. */
  lemma {:induction false} NoLostWakeup(states: seq<Sys>, events: seq<Event>, k: nat, l: LaneName)
    requires Run(states, events) && states[0] == Initial() && k < |states|
    ensures WakeInv(states[k])
    ensures states[k].consumer == Waiting && Get(states[k].count, l) > 0 ==>
        Enabled(states[k], Woken(l)) || Enabled(states[k], Signalled(l))
    decreases k
  {
    if k > 0 {
      NoLostWakeup(states, events, k - 1, l);
      StepKeepsWakeInv(states[k - 1], events[k - 1]);
    }
    assert Announced(states[k], l) || states[k].consumer != Waiting;
  }

  // -------------------------------------------------------------- starvation

  /** How many slots of other lanes come before the next slot of this lane. */
  function Distance(l: LaneName, cursor: nat): nat
    requires cursor < SLOTS
  {
    match l
    case Critical => if cursor < 16 then 0 else SLOTS - cursor
    case Control => if cursor < 16 then 16 - cursor else if cursor < 24 then 0 else 17
    case Bulk => 24 - cursor
  }

  /** The largest number of other messages that may leave before one of this lane. */
  function Gap(l: LaneName): nat {
    match l
    case Critical => 9
    case Control => 17
    case Bulk => 24
  }

  function Departures(states: seq<Sys>, events: seq<Event>): nat
    requires |states| >= |events|
  {
    if events == [] then 0
    else (if Serves(states[0], events[0]).Some? then 1 else 0) + Departures(states[1..], events[1..])
  }

  /** While a lane stays nonempty and unserved, the messages that leave count down the
      distance to its next slot. */
  lemma {:induction false} OthersCountDown(states: seq<Sys>, events: seq<Event>, l: LaneName)
    requires Run(states, events) && states[0].cursor < SLOTS
    requires forall k :: 0 <= k < |events| ==> Get(states[k].count, l) > 0 && Serves(states[k], events[k]) != Some(l)
    ensures states[|events|].cursor < SLOTS
    ensures Departures(states, events) + Distance(l, states[|events|].cursor) <= Distance(l, states[0].cursor)
    decreases |events|
  {
    if events != [] {
      var s, e := states[0], events[0];
      assert states[1] == Next(s, e);
      assert e.Visited? ==> SlotLane(s.cursor) != l;
      var rest := states[1..];
      assert forall k :: 0 <= k < |events[1..]| ==> events[1..][k] == events[k + 1] && rest[k] == states[k + 1];
      OthersCountDown(rest, events[1..], l);
    }
  }

  /** No starvation: from any moment on, while the lane stays nonempty and unserved, at most 9,
      17 or 24 messages of other lanes leave. */
  lemma {:induction false} NoStarvation(states: seq<Sys>, events: seq<Event>, l: LaneName)
    requires Run(states, events) && states[0].cursor < SLOTS
    requires forall k :: 0 <= k < |events| ==> Get(states[k].count, l) > 0 && Serves(states[k], events[k]) != Some(l)
    ensures Departures(states, events) <= Gap(l)
  {
    OthersCountDown(states, events, l);
  }

  // --------------------------------------------------------- tight bounds

  /** A run from its first state to its last. */
  ghost predicate RunTo(s: Sys, states: seq<Sys>, events: seq<Event>, t: Sys) {
    Run(states, events) && states[0] == s && states[|events|] == t
  }

  lemma {:induction false} RunConcat(s: Sys, states: seq<Sys>, events: seq<Event>, t: Sys, more: seq<Sys>,
      next: seq<Event>, u: Sys)
    requires RunTo(s, states, events, t) && RunTo(t, more, next, u)
    ensures RunTo(s, states[..|events|] + more, events + next, u)
    ensures (states[..|events|] + more)[|events|..] == more && (events + next)[|events|..] == next
  {
    hide Enabled, Next;
    var all, es := states[..|events|] + more, events + next;
    forall k | 0 <= k < |es| ensures Enabled(all[k], es[k]) && all[k + 1] == Next(all[k], es[k]) {
      if k < |events| {
        assert all[k] == states[k] && es[k] == events[k];
        assert all[k + 1] == states[k + 1];
      } else {
        assert all[k] == more[k - |events|] && es[k] == next[k - |events|] && all[k + 1] == more[k - |events| + 1];
      }
    }
  }

  lemma {:induction false} RunOne(s: Sys, e: Event)
    requires Enabled(s, e)
    ensures RunTo(s, [s, Next(s, e)], [e], Next(s, e))
  {
    hide Enabled, Next;
  }

  /** Every lane holds at least n messages, and the consumer is away. */
  predicate Stocked(s: Sys, n: nat) {
    s.cursor < SLOTS && s.consumer == Away && s.count.critical >= n && s.count.control >= n && s.count.bulk >= n
  }

  lemma {:induction false} Stock(s: Sys, n: nat) returns (states: seq<Sys>, events: seq<Event>, t: Sys)
    requires s.cursor < SLOTS && s.consumer == Away
    ensures RunTo(s, states, events, t) && t.cursor == s.cursor && Stocked(t, n)
    decreases n
  {
    if n == 0 {
      return [s], [], s;
    }
    var before;
    states, events, before := Stock(s, n - 1);
    var a := Next(before, Appended(Critical));
    var b := Next(a, Appended(Control));
    t := Next(b, Appended(Bulk));
    RunOne(before, Appended(Critical));
    RunConcat(s, states, events, before, [before, a], [Appended(Critical)], a);
    states, events := states[..|events|] + [before, a], events + [Appended(Critical)];
    RunOne(a, Appended(Control));
    RunConcat(s, states, events, a, [a, b], [Appended(Control)], b);
    states, events := states[..|events|] + [a, b], events + [Appended(Control)];
    RunOne(b, Appended(Bulk));
    RunConcat(s, states, events, b, [b, t], [Appended(Bulk)], t);
    states, events := states[..|events|] + [b, t], events + [Appended(Bulk)];
  }

  /** The consumer enters and is served by the slot at the cursor. */
  function Served(s: Sys): Sys
    requires Stocked(s, 1)
  {
    Next(Next(s, Entered), Visited)
  }

  lemma {:induction false} ServeOne(s: Sys, n: nat)
    requires Stocked(s, n + 1)
    ensures Stocked(Served(s), n) && Served(s).cursor == (s.cursor + 1) % SLOTS
    ensures RunTo(s, [s, Next(s, Entered), Served(s)], [Entered, Visited], Served(s))
    ensures Serves(s, Entered) == None && Serves(Next(s, Entered), Visited) == Some(SlotLane(s.cursor))
  {
  }

  /** n calls of the consumer, each served at once. */
  lemma {:induction false} Serve(s: Sys, n: nat, spare: nat) returns (states: seq<Sys>, events: seq<Event>, t: Sys)
    requires Stocked(s, n + spare) && s.cursor + n <= SLOTS
    ensures RunTo(s, states, events, t) && Stocked(t, spare) && t.cursor == (s.cursor + n) % SLOTS
    decreases n
  {
    if n == 0 {
      return [s], [], s;
    }
    ServeOne(s, n - 1 + spare);
    var u := Served(s);
    if n == 1 {
      return [s, Next(s, Entered), u], [Entered, Visited], u;
    }
    states, events, t := Serve(u, n - 1, spare);
    RunConcat(s, [s, Next(s, Entered), u], [Entered, Visited], u, states, events, t);
    states, events := [s, Next(s, Entered), u][..2] + states, [Entered, Visited] + events;
  }

  /** As long as the cursor is that far from the lane's next slot, n calls serve n others. */
  lemma {:induction false} ServeOthers(s: Sys, n: nat, l: LaneName)
      returns (states: seq<Sys>, events: seq<Event>, t: Sys)
    requires Stocked(s, n + 1) && n <= Distance(l, s.cursor)
    ensures RunTo(s, states, events, t) && Departures(states, events) == n
    ensures forall k :: 0 <= k < |events| ==> Get(states[k].count, l) > 0 && Serves(states[k], events[k]) != Some(l)
    decreases n
  {
    if n == 0 {
      return [s], [], s;
    }
    ServeOne(s, n);
    var m, u := Next(s, Entered), Served(s);
    var rest, es;
    rest, es, t := ServeOthers(u, n - 1, l);
    RunConcat(s, [s, m, u], [Entered, Visited], u, rest, es, t);
    states, events := [s, m] + rest, [Entered, Visited] + es;
    assert [s, m, u][..2] == [s, m];
    DeparturesOfTwo(s, m, rest, es);
    forall k | 0 <= k < |events| ensures Get(states[k].count, l) > 0 && Serves(states[k], events[k]) != Some(l) {
      if k >= 2 {
        assert states[k] == rest[k - 2] && events[k] == es[k - 2];
      }
    }
  }

  lemma {:induction false} DeparturesOfTwo(s: Sys, m: Sys, rest: seq<Sys>, es: seq<Event>)
    requires |rest| >= |es| && Serves(s, Entered) == None && Serves(m, Visited).Some?
    ensures Departures([s, m] + rest, [Entered, Visited] + es) == 1 + Departures(rest, es)
  {
    var states, events := [s, m] + rest, [Entered, Visited] + es;
    assert states[1..] == [m] + rest && events[1..] == [Visited] + es;
    assert states[1..][1..] == rest && events[1..][1..] == es;
  }

  /** The cursor that is farthest from the lane's next slot. */
  function Farthest(l: LaneName): nat {
    match l
    case Critical => 16
    case Control => 24
    case Bulk => 0
  }

  /** The bounds are tight: from the initial state a run leads to a moment after which the lane
      stays nonempty and unserved while exactly 9, 17 or 24 other messages leave. */
  lemma {:induction false} GapIsReached(l: LaneName) returns (states: seq<Sys>, events: seq<Event>, i: nat)
    ensures Run(states, events) && states[0] == Initial() && i <= |events|
    ensures forall k :: i <= k < |events| ==> Get(states[k].count, l) > 0 && Serves(states[k], events[k]) != Some(l)
    ensures Departures(states[i..], events[i..]) == Gap(l)
  {
    hide Departures, Stocked, Enabled, Next;
    StartsAway();
    var n := Gap(l) + 1;
    var a, ae, s := Stock(Initial(), Farthest(l) + n);
    var b, be, t := Serve(s, Farthest(l), n);
    RunConcat(Initial(), a, ae, s, b, be, t);
    var pre, pe := a[..|ae|] + b, ae + be;
    var c, ce, u := ServeOthers(t, Gap(l), l);
    RunConcat(Initial(), pre, pe, t, c, ce, u);
    states, events, i := pre[..|pe|] + c, pe + ce, |pe|;
    forall k | i <= k < |events| ensures Get(states[k].count, l) > 0 && Serves(states[k], events[k]) != Some(l) {
      assert states[k] == states[i..][k - i] && events[k] == events[i..][k - i];
    }
  }

  lemma {:induction false} StartsAway()
    ensures Initial().cursor == 0 && Initial().consumer == Away
  {
  }
}
