/** Producers that wait for room in a lane. The single space token wakes one of them, and what it
    does with the room decides whether another is left asleep. */
module LaneSpace {
  import opened Common
  import opened LaneQueue

  /** How a lane is used: whether it is the bulk lane, the size of the smallest message on it, and
      the kinds of those that wait. */
  datatype Use = Use(limit: Limit, bulk: bool, least: nat, waiters: set<Kind>)

  /** Metrics on the bulk lane are dropped instead of waiting, and no message is empty. */
  predicate Proper(u: Use) {
    u.least > 0 && (u.bulk ==> Metrics !in u.waiters)
  }

  /** A producer is elsewhere, about to try under the lock, or waits on the space token. */
  datatype Producer = Outside | Trying(item: Item) | Waiting(item: Item)

  datatype Space = Space(items: seq<Item>, token: bool, producers: seq<Producer>)

  datatype Event =
    | Arrive(producer: nat, item: Item)
    | Try(producer: nat)
    | Wake(producer: nat)
    | Cancel(producer: nat)
    | Offer(item: Item)
    | Remove(index: nat)

  predicate Sized(u: Use, item: Item) {
    u.least <= item.size <= u.limit.bytes
  }

  predicate Enabled(u: Use, s: Space, e: Event) {
    match e
    case Arrive(p, item) =>
      p < |s.producers| && s.producers[p] == Outside && Sized(u, item) && item.kind in u.waiters
    case Try(p) => p < |s.producers| && s.producers[p].Trying?
    case Wake(p) => p < |s.producers| && s.producers[p].Waiting? && s.token
    case Cancel(p) => p < |s.producers| && s.producers[p].Waiting?
    case Offer(item) => u.bulk && item.kind == Metrics && Sized(u, item)
    case Remove(i) => i < |s.items|
  }

  /** Metering on the bulk lane makes metrics give way. */
  predicate Displaces(u: Use, item: Item) {
    u.bulk && item.kind == Metering
  }

  /** The metrics that give way, beyond the first k: as many as it takes, or all of them. */
  function Needed(items: seq<Item>, item: Item, limit: Limit, k: nat): nat
    decreases MetricsIn(items) - k
  {
    if k >= MetricsIn(items) || Fits(Shed(items, k), item, limit) then k else Needed(items, item, limit, k + 1)
  }

  function ShedFor(u: Use, items: seq<Item>, item: Item): nat {
    if Displaces(u, item) then Needed(items, item, u.limit, 0) else 0
  }

  function Placed(s: Space, p: nat, state: Producer): Space
    requires p < |s.producers|
  {
    s.(producers := s.producers[p := state])
  }

  /** One attempt: evictions leave a token, then the message is queued or its producer waits. */
  function TryStep(u: Use, s: Space, p: nat): Space
    requires p < |s.producers| && s.producers[p].Trying?
  {
    var item := s.producers[p].item;
    var k := ShedFor(u, s.items, item);
    var left := Shed(s.items, k);
    if Fits(left, item, u.limit) then Placed(s.(items := left + [item], token := s.token || k > 0), p, Outside)
    else Placed(s.(items := left, token := s.token || k > 0), p, Waiting(item))
  }

  /** Whatever leaves the lane leaves a token, which waking consumes. */
  function Next(u: Use, s: Space, e: Event): Space
    requires Enabled(u, s, e)
  {
    match e
    case Arrive(p, item) => Placed(s, p, Trying(item))
    case Try(p) => TryStep(u, s, p)
    case Wake(p) => Placed(s.(token := false), p, Trying(s.producers[p].item))
    case Cancel(p) => Placed(s, p, Outside)
    case Offer(item) => if Fits(s.items, item, u.limit) then s.(items := s.items + [item]) else s
    case Remove(i) => s.(items := RemoveAt(s.items, i), token := true)
  }

  function Initial(n: nat): Space {
    Space([], false, seq(n, _ => Outside))
  }

  ghost predicate Leads(u: Use, s: Space, e: Event, t: Space) {
    Enabled(u, s, e) && t == Next(u, s, e)
  }

  ghost predicate Run(u: Use, n: nat, states: seq<Space>, events: seq<Event>) {
    && |states| == |events| + 1 && states[0] == Initial(n)
    && forall k :: 0 <= k < |events| ==> Leads(u, states[k], events[k], states[k + 1])
  }

  ghost predicate Reachable(u: Use, n: nat, s: Space) {
    exists states, events :: Run(u, n, states, events) && states[|events|] == s
  }

  predicate WouldFit(u: Use, s: Space, item: Item) {
    Fits(if Displaces(u, item) then Shed(s.items, MetricsIn(s.items)) else s.items, item, u.limit)
  }

  /** A producer waits although its message would fit, no token is there, and nobody is about to
      try. */
  predicate Lost(u: Use, s: Space) {
    && !s.token && (forall p :: 0 <= p < |s.producers| ==> !s.producers[p].Trying?)
    && exists p :: 0 <= p < |s.producers| && s.producers[p].Waiting? && WouldFit(u, s, s.producers[p].item)
  }

  /** No run with n producers that may wait, and any number of others, loses a wakeup. */
  ghost predicate NeverLost(u: Use, n: nat) {
    forall s :: Reachable(u, n, s) ==> !Lost(u, s)
  }

  // ------------------------------------------------------------------ metrics

  /** Everything but metrics. */
  function Lasting(s: seq<Item>): seq<Item> {
    if s == [] then [] else (if s[0].kind == Metrics then [] else [s[0]]) + Lasting(s[1..])
  }

  lemma {:induction false} ShedAllLasts(s: seq<Item>)
    ensures Shed(s, MetricsIn(s)) == Lasting(s)
  {
    if s != [] {
      ShedAllLasts(s[1..]);
      if MetricsIn(s) == 0 {
        assert s == [s[0]] + s[1..];
      }
    }
  }

  lemma {:induction false} LastingSnoc(s: seq<Item>, x: Item)
    ensures Lasting(s + [x]) == Lasting(s) + if x.kind == Metrics then [] else [x]
    decreases |s|
  {
    if s == [] {
      assert s + [x] == [x] && [x][1..] == [];
    } else {
      LastingSnoc(s[1..], x);
      var head, tail := if s[0].kind == Metrics then [] else [s[0]], if x.kind == Metrics then [] else [x];
      assert (s + [x])[0] == s[0] && (s + [x])[1..] == s[1..] + [x];
      assert head + (Lasting(s[1..]) + tail) == head + Lasting(s[1..]) + tail;
    }
  }

  lemma {:induction false} ShedKeepsLasting(s: seq<Item>, k: nat)
    ensures Lasting(Shed(s, k)) == Lasting(s)
    decreases |s|
  {
    if s != [] && k > 0 {
      if s[0].kind == Metrics {
        ShedKeepsLasting(s[1..], k - 1);
      } else {
        ShedKeepsLasting(s[1..], k);
        assert ([s[0]] + Shed(s[1..], k))[1..] == Shed(s[1..], k);
      }
    }
  }

  lemma {:induction false} NeededIsLeast(items: seq<Item>, item: Item, limit: Limit, j: nat, k: nat)
    requires j <= k <= MetricsIn(items)
    requires forall m: nat :: m < k ==> !Fits(Shed(items, m), item, limit)
    requires k == MetricsIn(items) || Fits(Shed(items, k), item, limit)
    ensures Needed(items, item, limit, j) == k
    decreases k - j
  {
    hide Shed, Fits;
    if j < k {
      NeededIsLeast(items, item, limit, j + 1, k);
    }
  }

  /** Shedding stops where the message fits or nothing is left to shed. */
  lemma {:induction false} NeededStops(items: seq<Item>, item: Item, limit: Limit, j: nat)
    requires j <= MetricsIn(items)
    ensures var k := Needed(items, item, limit, j);
            k <= MetricsIn(items) && (k == MetricsIn(items) || Fits(Shed(items, k), item, limit))
    decreases MetricsIn(items) - j
  {
    hide Shed, Fits;
    if j < MetricsIn(items) && !Fits(Shed(items, j), item, limit) {
      NeededStops(items, item, limit, j + 1);
    }
  }

  /** What a message has to share the lane with. */
  function Obstacles(s: Space, displacing: bool): seq<Item> {
    if displacing then Lasting(s.items) else s.items
  }

  lemma {:induction false} WouldFitMeans(u: Use, s: Space, item: Item)
    ensures WouldFit(u, s, item) <==> Fits(Obstacles(s, Displaces(u, item)), item, u.limit)
  {
    ShedAllLasts(s.items);
  }

  /** With everything shed or the message fitting: it fits now if and only if it would fit. */
  lemma {:induction false} ShedDecides(u: Use, s: Space, item: Item)
    ensures var left := Shed(s.items, ShedFor(u, s.items, item));
            && (Fits(left, item, u.limit) <==> WouldFit(u, s, item))
            && (!Displaces(u, item) ==> left == s.items)
            && Lasting(left) == Lasting(s.items)
  {
    hide Shed, Fits, Lasting;
    var k := ShedFor(u, s.items, item);
    ShedNone(s.items);
    ShedKeepsLasting(s.items, k);
    if Displaces(u, item) {
      NeededStops(s.items, item, u.limit, 0);
      if k < MetricsIn(s.items) {
        ShedShrinks(s.items, k, MetricsIn(s.items));
        FitsShrinks(Shed(s.items, MetricsIn(s.items)), Shed(s.items, k), item, u.limit);
      }
    }
  }

  lemma {:induction false} FitsShrinks(a: seq<Item>, b: seq<Item>, item: Item, limit: Limit)
    requires |a| <= |b| && Bytes(a) <= Bytes(b) && Fits(b, item, limit)
    ensures Fits(a, item, limit)
  {
  }

  /** An attempt succeeds if and only if the message would fit, and it displaces nothing but
      metrics. */
  lemma {:induction false} TryMeans(u: Use, s: Space, p: nat)
    requires p < |s.producers| && s.producers[p].Trying?
    ensures var item, t := s.producers[p].item, TryStep(u, s, p);
            var fits := WouldFit(u, s, item);
            && t.producers == s.producers[p := if fits then Outside else Waiting(item)]
            && (!Displaces(u, item) ==> t.items == s.items + if fits then [item] else [])
            && Lasting(t.items) == Lasting(s.items) + (if fits && item.kind != Metrics then [item] else [])
            && (s.token ==> t.token)
            && (!fits ==> !WouldFit(u, t, item))
  {
    hide Shed, Fits, Lasting, WouldFit, ShedFor;
    var item, t := s.producers[p].item, TryStep(u, s, p);
    ShedDecides(u, s, item);
    LastingSnoc(Shed(s.items, ShedFor(u, s.items, item)), item);
    assert s.items + [] == s.items && Lasting(s.items) + [] == Lasting(s.items);
    WouldFitMeans(u, s, item);
    WouldFitMeans(u, t, item);
  }

  // ------------------------------------------------------------- one producer

  /** Offered metrics make no room. */
  lemma {:induction false} OfferMakesNoRoom(u: Use, s: Space, metric: Item, item: Item)
    requires metric.kind == Metrics && WouldFit(u, s.(items := s.items + [metric]), item)
    ensures WouldFit(u, s, item)
  {
    hide Shed, Lasting, MetricsIn, WouldFit;
    var t := s.(items := s.items + [metric]);
    WouldFitMeans(u, s, item);
    WouldFitMeans(u, t, item);
    LastingSnoc(s.items, metric);
    assert Lasting(s.items) + [] == Lasting(s.items);
    BytesConcat(s.items, [metric]);
  }

  /** The only producer never waits in vain: if its message would fit, a token is there. */
  ghost predicate Single(u: Use, n: nat, s: Space) {
    && |s.producers| == n
    && (n == 1 && s.producers[0].Waiting? && WouldFit(u, s, s.producers[0].item) ==> s.token)
  }

  lemma {:induction false} SingleStays(u: Use, n: nat, s: Space, e: Event, t: Space)
    requires n <= 1 && Single(u, n, s) && Leads(u, s, e, t)
    ensures Single(u, n, t)
  {
    hide WouldFit, Fits;
    match e {
      case Try(p) => TryMeans(u, s, p);
      case Offer(item) =>
        if Fits(s.items, item, u.limit) && n == 1 && s.producers[0].Waiting?
          && WouldFit(u, t, s.producers[0].item) {
          OfferMakesNoRoom(u, s, item, s.producers[0].item);
        }
      case _ =>
    }
  }

  /** With one producer that may wait: whenever it waits and its message would fit, a space token
      is there. */
  lemma {:induction false} OneIsWoken(u: Use, n: nat, states: seq<Space>, events: seq<Event>, k: nat)
    requires Run(u, n, states, events) && n <= 1 && k < |states|
    ensures Single(u, n, states[k])
    decreases k
  {
    if k > 0 {
      hide Leads, Single;
      OneIsWoken(u, n, states, events, k - 1);
      assert Leads(u, states[k - 1], events[k - 1], states[k - 1 + 1]);
      SingleStays(u, n, states[k - 1], events[k - 1], states[k]);
    }
  }

  // -------------------------------------------------------------- narrow lane

  /** The lane never holds two messages. */
  predicate HoldsOne(u: Use) {
    u.limit.messages < 2 || u.limit.bytes < 2 * u.least
  }

  /** Waiting metering displaces metrics that other waiting messages give way to. */
  predicate Mixed(u: Use) {
    u.bulk && Metering in u.waiters && Other in u.waiters
  }

  predicate Displacing(u: Use) {
    u.bulk && Other !in u.waiters
  }

  predicate AllSized(u: Use, items: seq<Item>) {
    forall i :: 0 <= i < |items| ==> items[i].size >= u.least
  }

  predicate Admitted(u: Use, s: Space) {
    forall p :: 0 <= p < |s.producers| && !s.producers[p].Outside? ==>
      Sized(u, s.producers[p].item) && s.producers[p].item.kind in u.waiters
  }

  /** Somebody who could use the room knows, or can find out. */
  predicate Heeded(u: Use, s: Space) {
    Obstacles(s, Displacing(u)) == [] && (exists p :: 0 <= p < |s.producers| && s.producers[p].Waiting?) ==>
      s.token || exists p :: 0 <= p < |s.producers| && s.producers[p].Trying?
  }

  predicate Narrow(u: Use, s: Space) {
    AllSized(u, s.items) && Admitted(u, s) && Heeded(u, s)
  }

  lemma {:induction false} LastingSized(u: Use, items: seq<Item>)
    requires AllSized(u, items)
    ensures AllSized(u, Lasting(items))
  {
    if items != [] {
      LastingSized(u, items[1..]);
    }
  }

  lemma {:induction false} ShedSized(u: Use, items: seq<Item>, k: nat)
    requires AllSized(u, items)
    ensures AllSized(u, Shed(items, k))
    decreases |items|
  {
    if items != [] && k > 0 {
      ShedSized(u, items[1..], if items[0].kind == Metrics then k - 1 else k);
    }
  }

  lemma {:induction false} BytesAtLeast(u: Use, items: seq<Item>)
    requires AllSized(u, items)
    ensures items != [] ==> Bytes(items) >= u.least
  {
    if items != [] {
      assert Bytes(items) >= items[0].size;
    }
  }

  /** On a lane for one message, whatever waits would fit only if nothing is in its way. */
  lemma {:induction false} RoomMeansEmpty(u: Use, s: Space, item: Item)
    requires HoldsOne(u) && AllSized(u, s.items) && Sized(u, item) && WouldFit(u, s, item)
    ensures Obstacles(s, Displaces(u, item)) == []
  {
    hide WouldFit, Lasting, Shed;
    WouldFitMeans(u, s, item);
    LastingSized(u, s.items);
    var o := Obstacles(s, Displaces(u, item));
    BytesAtLeast(u, o);
  }

  lemma {:induction false} NarrowIsNotLost(u: Use, s: Space)
    requires Proper(u) && HoldsOne(u) && !Mixed(u) && Narrow(u, s)
    ensures !Lost(u, s)
  {
    hide WouldFit;
    if Lost(u, s) {
      var p :| 0 <= p < |s.producers| && s.producers[p].Waiting? && WouldFit(u, s, s.producers[p].item);
      RoomMeansEmpty(u, s, s.producers[p].item);
    }
  }

  lemma {:induction false} TryKeepsNarrow(u: Use, s: Space, p: nat)
    requires Proper(u) && u.limit.messages >= 1 && !Mixed(u) && Narrow(u, s) && Enabled(u, s, Try(p))
    ensures Narrow(u, TryStep(u, s, p))
  {
    hide WouldFit, Lasting, Shed, ShedFor;
    var item, t := s.producers[p].item, TryStep(u, s, p);
    TryMeans(u, s, p);
    ShedSized(u, s.items, ShedFor(u, s.items, item));
    WouldFitMeans(u, s, item);
    assert Displaces(u, item) == Displacing(u);
    assert Obstacles(s, Displacing(u)) == [] ==> WouldFit(u, s, item);
    assert Obstacles(t, Displacing(u)) != [];
  }

  lemma {:induction false} NarrowStays(u: Use, s: Space, e: Event, t: Space)
    requires Proper(u) && u.limit.messages >= 1 && !Mixed(u) && Narrow(u, s) && Leads(u, s, e, t)
    ensures Narrow(u, t)
  {
    hide Lasting, TryStep;
    match e {
      case Arrive(p, item) => assert t.producers[p].Trying?;
      case Try(p) => TryKeepsNarrow(u, s, p);
      case Wake(p) => assert t.producers[p].Trying?;
      case Cancel(p) => CancelKeeps(u, s, p);
      case Offer(item) => LastingSnoc(s.items, item);
      case Remove(i) =>
    }
  }

  lemma {:induction false} CancelKeeps(u: Use, s: Space, p: nat)
    requires Narrow(u, s) && Enabled(u, s, Cancel(p))
    ensures Narrow(u, Placed(s, p, Outside))
  {
    hide Lasting;
    var t := Placed(s, p, Outside);
    assert forall q :: 0 <= q < |s.producers| && q != p ==> t.producers[q] == s.producers[q];
    if q :| 0 <= q < |s.producers| && s.producers[q].Trying? {
      assert t.producers[q].Trying?;
    }
  }

  lemma {:induction false} NarrowRun(u: Use, n: nat, states: seq<Space>, events: seq<Event>, k: nat)
    requires Proper(u) && u.limit.messages >= 1 && !Mixed(u) && Run(u, n, states, events) && k < |states|
    ensures Narrow(u, states[k])
    decreases k
  {
    hide Leads;
    if k > 0 {
      hide Narrow;
      NarrowRun(u, n, states, events, k - 1);
      assert Leads(u, states[k - 1], events[k - 1], states[k - 1 + 1]);
      NarrowStays(u, states[k - 1], events[k - 1], states[k]);
    }
  }

  // ------------------------------------------------------------ nobody waits

  predicate NobodyHere(s: Space) {
    forall p :: 0 <= p < |s.producers| ==> s.producers[p] == Outside
  }

  lemma {:induction false} NobodyComes(u: Use, n: nat, states: seq<Space>, events: seq<Event>, k: nat)
    requires u.waiters == {} || u.limit.bytes < u.least
    requires Run(u, n, states, events) && k < |states|
    ensures NobodyHere(states[k])
    decreases k
  {
    if k > 0 {
      NobodyComes(u, n, states, events, k - 1);
      assert Leads(u, states[k - 1], events[k - 1], states[k - 1 + 1]);
    }
  }

  // ----------------------------------------------------------------- witness

  lemma {:induction false} ReachStart(u: Use, n: nat)
    ensures Reachable(u, n, Initial(n))
  {
    var states, events: seq<Event> := [Initial(n)], [];
    assert Run(u, n, states, events) && states[|events|] == Initial(n);
  }

  lemma {:induction false} ReachStep(u: Use, n: nat, s: Space, e: Event, t: Space)
    requires Reachable(u, n, s) && Leads(u, s, e, t)
    ensures Reachable(u, n, t)
  {
    hide Leads, Initial;
    var states, events :| Run(u, n, states, events) && states[|events|] == s;
    var more, longer := states + [t], events + [e];
    forall k | 0 <= k < |longer|
      ensures Leads(u, more[k], longer[k], more[k + 1])
    {
      if k < |events| {
        assert Leads(u, states[k], events[k], states[k + 1]);
      }
    }
    assert Run(u, n, more, longer) && more[|longer|] == t;
  }

  /** A message that fits is queued, and displaces nothing. */
  lemma {:induction false} Queues(u: Use, n: nat, s: Space, p: nat)
    requires Reachable(u, n, s) && p < |s.producers| && s.producers[p].Trying?
    requires Fits(s.items, s.producers[p].item, u.limit)
    ensures Reachable(u, n, Placed(s.(items := s.items + [s.producers[p].item]), p, Outside))
  {
    hide Fits, Reachable, Shed;
    ShedNone(s.items);
    ReachStep(u, n, s, Try(p), TryStep(u, s, p));
  }

  /** A message that does not fit, on a lane where it has nothing to displace, waits. */
  lemma {:induction false} StaysOut(u: Use, n: nat, s: Space, p: nat)
    requires Reachable(u, n, s) && p < |s.producers| && s.producers[p].Trying?
    requires !Fits(s.items, s.producers[p].item, u.limit)
    requires MetricsIn(s.items) == 0 || !Displaces(u, s.producers[p].item)
    ensures Reachable(u, n, Placed(s, p, Waiting(s.producers[p].item)))
  {
    hide Fits, Reachable, Shed, MetricsIn;
    ShedNone(s.items);
    ReachStep(u, n, s, Try(p), TryStep(u, s, p));
  }

  lemma {:induction false} ArrivesAndWaits(u: Use, n: nat, s: Space, p: nat, item: Item)
    requires Reachable(u, n, s) && p < |s.producers| && s.producers[p] == Outside
    requires Sized(u, item) && item.kind in u.waiters && !Fits(s.items, item, u.limit)
    requires MetricsIn(s.items) == 0 || !Displaces(u, item)
    ensures Reachable(u, n, Placed(s, p, Waiting(item)))
  {
    hide Fits, Reachable, MetricsIn;
    var t := Placed(s, p, Trying(item));
    ReachStep(u, n, s, Arrive(p, item), t);
    StaysOut(u, n, t, p);
    assert t.producers[p := Waiting(item)] == s.producers[p := Waiting(item)];
  }

  lemma {:induction false} ArrivesAndQueues(u: Use, n: nat, s: Space, p: nat, item: Item)
    requires Reachable(u, n, s) && p < |s.producers| && s.producers[p] == Outside
    requires Sized(u, item) && item.kind in u.waiters && Fits(s.items, item, u.limit)
    ensures Reachable(u, n, s.(items := s.items + [item]))
  {
    hide Fits, Reachable;
    var t := Placed(s, p, Trying(item));
    ReachStep(u, n, s, Arrive(p, item), t);
    Queues(u, n, t, p);
    assert t.producers[p := Outside] == s.producers;
  }

  lemma {:induction false} Wakes(u: Use, n: nat, s: Space, p: nat)
    requires Reachable(u, n, s) && p < |s.producers| && s.producers[p].Waiting? && s.token
    ensures Reachable(u, n, Placed(s.(token := false), p, Trying(s.producers[p].item)))
  {
    hide Reachable;
    ReachStep(u, n, s, Wake(p), Placed(s.(token := false), p, Trying(s.producers[p].item)));
  }

  lemma {:induction false} Alone(x: Item)
    ensures Bytes([x]) == x.size && Bytes([]) == 0 && Lasting([]) == []
    ensures MetricsIn([x]) == 0 <==> x.kind != Metrics
    ensures x.kind == Metrics ==> Lasting([x]) == []
    ensures x.kind != Metrics ==> Lasting([x]) == [x]
  {
    assert [x][1..] == [];
  }

  /** The lane is full of one message; two producers wait; the message leaves. */
  lemma {:induction false} TwoWait(u: Use, n: nat, filler: Item, first: Item, second: Item)
    requires n >= 2 && u.least > 0 && u.limit.messages >= 1 && filler.size == u.limit.bytes
    requires Sized(u, filler) && Sized(u, first) && Sized(u, second)
    requires {filler.kind, first.kind, second.kind} <= u.waiters
    requires u.bulk ==> filler.kind != Metrics
    ensures Reachable(u, n, Space([], true, Initial(n).producers[0 := Waiting(first)][1 := Waiting(second)]))
  {
    hide Reachable, Lasting, MetricsIn;
    ReachStart(u, n);
    var s := Initial(n);
    Alone(filler);
    assert [] + [filler] == [filler];
    ArrivesAndQueues(u, n, s, 0, filler);
    s := s.(items := [filler]);
    ArrivesAndWaits(u, n, s, 0, first);
    s := Placed(s, 0, Waiting(first));
    ArrivesAndWaits(u, n, s, 1, second);
    s := Placed(s, 1, Waiting(second));
    assert RemoveAt([filler], 0) == [];
    ReachStep(u, n, s, Remove(0), s.(items := [], token := true));
  }

  /** On a lane with room for two, the token wakes one producer for the room of two. */
  lemma {:induction false} LossWithRoom(u: Use, n: nat, kind: Kind) returns (s: Space)
    requires Proper(u) && n >= 2 && !HoldsOne(u) && kind in u.waiters
    ensures Reachable(u, n, s) && Lost(u, s)
  {
    hide Reachable, Lasting, MetricsIn, Shed;
    var filler, small := Item(0, kind, u.limit.bytes), Item(0, kind, u.least);
    TwoWait(u, n, filler, small, small);
    s := Space([], true, Initial(n).producers[0 := Waiting(small)][1 := Waiting(small)]);
    Alone(small);
    Wakes(u, n, s, 0);
    s := Placed(s.(token := false), 0, Trying(small));
    assert [] + [small] == [small];
    Queues(u, n, s, 0);
    s := Placed(s.(items := [small]), 0, Outside);
    assert s.producers[1] == Waiting(small);
    WouldFitMeans(u, s, small);
  }

  /** On the bulk lane, the token wakes a producer that finds metrics in its way, while another
      could displace them. */
  lemma {:induction false} LossWhenMixed(u: Use, n: nat) returns (s: Space)
    requires Proper(u) && n >= 2 && Mixed(u) && u.limit.messages >= 1 && u.limit.bytes >= u.least
    ensures Reachable(u, n, s) && Lost(u, s)
  {
    hide Reachable, Lasting, MetricsIn, Shed;
    var filler, metric := Item(0, Other, u.limit.bytes), Item(0, Metrics, u.limit.bytes);
    var first, second := Item(0, Other, u.least), Item(0, Metering, u.least);
    TwoWait(u, n, filler, first, second);
    s := Space([], true, Initial(n).producers[0 := Waiting(first)][1 := Waiting(second)]);
    Wakes(u, n, s, 0);
    s := Placed(s.(token := false), 0, Trying(first));
    Alone(metric);
    assert [] + [metric] == [metric];
    ReachStep(u, n, s, Offer(metric), s.(items := [metric]));
    s := s.(items := [metric]);
    StaysOut(u, n, s, 0);
    s := Placed(s, 0, Waiting(first));
    assert s.producers[1] == Waiting(second);
    WouldFitMeans(u, s, second);
  }

  // ------------------------------------------------------------------ theorem

  /** Two producers can wait, and there is room for two messages, or for one that two kinds of
      waiting messages contend for with metrics. */
  predicate CanLose(u: Use, n: nat) {
    && n >= 2 && u.waiters != {} && u.limit.messages >= 1 && u.limit.bytes >= u.least
    && (!HoldsOne(u) || Mixed(u))
  }

  lemma {:induction false} NothingIsLost(u: Use, n: nat, s: Space)
    requires Proper(u) && !CanLose(u, n) && Reachable(u, n, s)
    ensures !Lost(u, s)
  {
    hide WouldFit, Single, Narrow, Leads;
    var states, events :| Run(u, n, states, events) && states[|events|] == s;
    if n <= 1 {
      OneIsWoken(u, n, states, events, |events|);
      SingleIsNotLost(u, n, s);
    } else if u.limit.messages < 1 {
      NoRoomAtAll(u, s);
    } else if u.waiters == {} || u.limit.bytes < u.least {
      NobodyComes(u, n, states, events, |events|);
    } else {
      NarrowRun(u, n, states, events, |events|);
      NarrowIsNotLost(u, s);
    }
  }

  lemma {:induction false} SingleIsNotLost(u: Use, n: nat, s: Space)
    requires n <= 1 && Single(u, n, s)
    ensures !Lost(u, s)
  {
  }

  lemma {:induction false} NoRoomAtAll(u: Use, s: Space)
    requires u.limit.messages < 1
    ensures !Lost(u, s)
  {
  }

  /** The space token never leaves a producer asleep whose message would fit, with no token left and
      nobody about to try, if and only if fewer than two producers can wait or the lane is too
      narrow for two messages to meet. */
  lemma {:induction false} SpaceWakesIff(u: Use, n: nat)
    requires Proper(u)
    ensures NeverLost(u, n) <==> !CanLose(u, n)
  {
    hide Reachable, Lost;
    if CanLose(u, n) {
      var s;
      if HoldsOne(u) {
        s := LossWhenMixed(u, n);
      } else {
        var kind :| kind in u.waiters;
        s := LossWithRoom(u, n, kind);
      }
    } else {
      forall s | Reachable(u, n, s)
        ensures !Lost(u, s)
      {
        NothingIsLost(u, n, s);
      }
    }
  }

  // -------------------------------------------------------------- the methods

  /** The lane's content, limit and space token are as the model has them. */
  ghost predicate Shows(u: Use, lane: Lane, s: Space)
    reads lane
  {
    u.limit == lane.limit && s.items == lane.items && s.token == lane.space
  }

  /** An attempt that sheds k metrics, as many as it takes or all of them. */
  lemma {:induction false} ShedsAndTries(u: Use, s: Space, p: nat, k: nat, queued: bool)
    requires p < |s.producers| && s.producers[p].Trying? && k <= MetricsIn(s.items)
    requires Displaces(u, s.producers[p].item) || k == 0
    requires forall m: nat :: m < k ==> !Fits(Shed(s.items, m), s.producers[p].item, u.limit)
    requires queued == Fits(Shed(s.items, k), s.producers[p].item, u.limit)
    requires Displaces(u, s.producers[p].item) && !queued ==> k == MetricsIn(s.items)
    ensures var item := s.producers[p].item;
            TryStep(u, s, p) == Space(Shed(s.items, k) + (if queued then [item] else []), s.token || k > 0,
                                      s.producers[p := if queued then Outside else Waiting(item)])
  {
    hide Shed, Fits, MetricsIn, Needed;
    if Displaces(u, s.producers[p].item) {
      NeededIsLeast(s.items, s.producers[p].item, u.limit, 0, k);
    }
    assert Shed(s.items, k) + [] == Shed(s.items, k);
  }

  /** One attempt of a producer that would wait, by the push that its message calls for. */
  method Attempt(ghost u: Use, lane: Lane, bulk: bool, item: Item, ghost s: Space, ghost p: nat)
      returns (outcome: Outcome, ghost t: Space)
    requires lane.Valid() && !lane.closed && Shows(u, lane, s) && u.bulk == bulk
    requires Sized(u, item) && !(bulk && item.kind == Metrics)
    requires p < |s.producers| && s.producers[p] == Trying(item)
    modifies lane
    ensures lane.Valid() && Leads(u, s, Try(p), t) && Shows(u, lane, t)
    ensures t.producers == s.producers[p := if outcome == Queued then Outside else Waiting(item)]
    ensures outcome in {Queued, Waits}
  {
    hide Orderly, Shed, Bytes, Fits, MetricsIn, TryStep;
    t := TryStep(u, s, p);
    if bulk && item.kind == Metering {
      ghost var k;
      outcome, k := lane.PushMetering(item);
      ShedsAndTries(u, s, p, k, outcome == Queued);
    } else {
      ShedNone(lane.items);
      outcome := lane.Push(item, false);
      ShedsAndTries(u, s, p, 0, outcome == Queued);
    }
  }

  /** Bulk metrics are queued or dropped. */
  method OfferMetric(ghost u: Use, lane: Lane, item: Item, ghost s: Space) returns (outcome: Outcome, ghost t: Space)
    requires lane.Valid() && !lane.closed && Shows(u, lane, s) && Enabled(u, s, Offer(item))
    modifies lane
    ensures lane.Valid() && Leads(u, s, Offer(item), t) && Shows(u, lane, t) && outcome in {Queued, Dropped}
  {
    hide Orderly, Bytes, Fits;
    t := Next(u, s, Offer(item));
    outcome := lane.Push(item, true);
  }

  /** Whatever the consumer takes is a removal. */
  method Take(ghost u: Use, lane: Lane, bulk: bool, ghost s: Space)
      returns (item: Option<Item>, ghost i: nat, ghost t: Space)
    requires lane.Valid() && Shows(u, lane, s)
    modifies lane
    ensures lane.Valid() && Shows(u, lane, t)
    ensures item.None? ==> s.items == [] && t == s
    ensures item.Some? ==> i < |s.items| && item.value == s.items[i] && Leads(u, s, Remove(i), t)
  {
    hide Orderly, Bytes;
    i, t := 0, s;
    if bulk {
      ghost var first := FirstOf(lane.items, Metering);
      i := if first < |lane.items| then first else 0;
      item := lane.PopMeteringFirst();
    } else {
      item := lane.Pop();
    }
    if item.Some? {
      t := Next(u, s, Remove(i));
    }
  }
}
