/** What the group must do, not only what it may: which connections a round moves, and which a sweep
    closes. */
module GroupDuties {
  import opened Common
  import opened GroupModel
  import opened GroupInvariant
  import opened GroupRuns
  import opened RouterGroup

  /** An open connection with no redirect under way, that is not about to close, and did not fail to
      move within the last three seconds. It may have moved before. */
  predicate Movable(w: World, c: ConnId, now: Time) {
    && c in w.group.conns && w.group.conns[c].phase != Closed && c !in w.inFlight && !w.group.conns[c].forceClosing
    && (w.group.conns[c].phase == RedirectFail && w.group.conns[c].lastRedirect.Some? ==>
          w.group.conns[c].lastRedirect.value + 3_000_000_000 <= now)
  }

  lemma {:induction false} MovableMeans(w: World, c: ConnId, now: Time)
    requires Inv(w) && c in w.group.conns
    ensures Movable(w, c, now) <==> w.group.conns[c].physical.Some? && Redirectable(w.group.conns[c], now)
  {
    assert PhaseOk(w.group.conns[c]) && FlightOk(w.group, w.inFlight, c);
  }

  /** In every run, a redirect to a registered backend may be attempted if and only if the connection
      is movable. */
  lemma {:induction false} AttemptIffMovable(trace: seq<World>, events: seq<Event>, i: nat, c: ConnId, to: Ref,
      now: Time, accepted: bool)
    requires Run(trace, events) && i < |trace|
    requires to in trace[i].registered.Values && to in trace[i].group.objects
    ensures Enabled(trace[i], Attempt(c, to, now, accepted)) <==> Movable(trace[i], c, now)
  {
    RunKeepsInv(trace, events, i);
    hide Inv, Redirectable;
    if c in trace[i].group.conns {
      MovableMeans(trace[i], c, now);
    }
  }

  // ------------------------------------------------------------------- rounds

  /** How many of these connections can be redirected and agree to. */
  function Willing(conns: map<ConnId, Conn>, list: seq<ConnId>, now: Time, answer: ConnId -> bool): nat {
    if list == [] then 0
    else Willing(conns, list[1..], now, answer)
         + if list[0] in conns && Redirectable(conns[list[0]], now) && answer(list[0]) then 1 else 0
  }

  lemma {:induction false} AttemptsAreListed(conns: map<ConnId, Conn>, list: seq<ConnId>, to: Ref, count: nat,
      now: Time, answer: ConnId -> bool, e: Event)
    requires e in Attempts(conns, list, to, count, now, answer)
    ensures e.Attempt? && e.conn in list && e == Attempt(e.conn, to, now, answer(e.conn))
    decreases |list|
  {
    hide Redirectable;
    var moves := list[0] in conns && Redirectable(conns[list[0]], now);
    var left := if moves && answer(list[0]) then count - 1 else count;
    if e in Attempts(conns, list[1..], to, left, now, answer) {
      AttemptsAreListed(conns, list[1..], to, left, now, answer, e);
    }
  }

  /** A round attempts a connection if and only if it can be redirected and fewer than the quota agreed
      before it. */
  lemma {:induction false} AttemptsExact(conns: map<ConnId, Conn>, list: seq<ConnId>, to: Ref, count: nat, now: Time,
      answer: ConnId -> bool, i: nat)
    requires i < |list| && list[i] in conns && forall a, b :: 0 <= a < b < |list| ==> list[a] != list[b]
    ensures Attempt(list[i], to, now, answer(list[i])) in Attempts(conns, list, to, count, now, answer) <==>
            Redirectable(conns[list[i]], now) && Willing(conns, list[..i], now, answer) < count
    decreases |list|
  {
    hide Redirectable;
    if count > 0 {
      var first, tail := list[0], list[1..];
      var moves := first in conns && Redirectable(conns[first], now);
      var left := if moves && answer(first) then count - 1 else count;
      var e := Attempt(list[i], to, now, answer(list[i]));
      if i == 0 {
        if e in Attempts(conns, tail, to, left, now, answer) {
          AttemptsAreListed(conns, tail, to, left, now, answer, e);
        }
      } else {
        assert tail[i - 1] == list[i] && list[..i][1..] == tail[..i - 1];
        AttemptsExact(conns, tail, to, left, now, answer, i - 1);
      }
    }
  }

  lemma {:induction false} ListDistinct(g: Group, r: Ref)
    requires ListsOk(g) && r in g.objects
    ensures forall a, b :: 0 <= a < b < |g.objects[r].list| ==> g.objects[r].list[a] != g.objects[r].list[b]
    ensures forall a :: 0 <= a < |g.objects[r].list| ==> g.objects[r].list[a] in g.conns
  {
    assert ListOk(g, r);
  }

  /** A round between two backends of one keyspace attempts to move a connection of the first if and
      only if it is movable, was looked at, and fewer than the quota agreed before it. */
  lemma {:induction false} RoundIsExact(w: World, choice: Choice, reach: nat, now: Time, last: Option<Time>,
      answer: ConnId -> bool, i: nat)
    requires Inv(w) && choice.from in w.group.objects && choice.to in w.group.objects && choice.interval > 0
    requires w.group.objects[choice.from].keyspace == w.group.objects[choice.to].keyspace
    requires i < |w.group.objects[choice.from].list|
    ensures var list := w.group.objects[choice.from].list;
            Attempt(list[i], choice.to, now, answer(list[i]))
              in RoundOf(w.group, Some(choice), reach, now, last, answer)
            <==> && i < reach && Movable(w, list[i], now)
                 && Willing(w.group.conns, list[..i], now, answer) < RoundQuota(choice.interval, now, last)
  {
    var list := w.group.objects[choice.from].list;
    ListDistinct(w.group, choice.from);
    ListedIsPhysical(w, choice.from, i);
    MovableMeans(w, list[i], now);
    hide Inv, Movable, Redirectable, RoundQuota;
    var seen, count := list[..Min(reach, |list|)], RoundQuota(choice.interval, now, last);
    var e := Attempt(list[i], choice.to, now, answer(list[i]));
    if i < reach {
      assert seen[i] == list[i] && seen[..i] == list[..i];
      AttemptsExact(w.group.conns, seen, choice.to, count, now, answer, i);
    } else if e in Attempts(w.group.conns, seen, choice.to, count, now, answer) {
      AttemptsAreListed(w.group.conns, seen, choice.to, count, now, answer, e);
    }
  }

  lemma {:induction false} ListedIsPhysical(w: World, r: Ref, i: nat)
    requires Inv(w) && r in w.group.objects && i < |w.group.objects[r].list|
    ensures var c := w.group.objects[r].list[i]; c in w.group.conns && w.group.conns[c].physical == Some(r)
  {
    assert ListOk(w.group, r);
    assert w.group.objects[r].list[i] in w.group.objects[r].list;
  }

  // ------------------------------------------------------------------- sweeps

  /** After a sweep a connection is about to close if and only if it was before, or is open on a
      backend of the group that has been in failover for the whole timeout, and agrees. */
  lemma {:induction false} SweepIsExact(w: World, now: Time, answer: ConnId -> bool, c: ConnId)
    requires Inv(w) && c in w.group.conns
    ensures var k := w.group.conns[c];
            Swept(w, w.group.conns.Keys, now, answer)[c].forceClosing <==>
            || k.forceClosing
            || (&& k.physical.Some? && answer(c) && k.physical.value in w.group.backends.Values
                && var since := w.group.objects[k.physical.value].failoverSince;
                   since.Some? && (w.group.failTimeout <= 0 || since.value + w.group.failTimeout <= now))
  {
    assert PhaseOk(w.group.conns[c]);
    assert OwnersOk(w.group);
  }

  /** A backend that was just registered is found under its ID and takes new connections. */
  lemma {:induction false} RegisteredIsFresh(w: World, e: Event, excluded: set<string>)
    requires Inv(w) && Enabled(w, e) && e.Register?
    ensures var t := Next(w, e).group;
            && e.id in t.backends && t.backends[e.id] == e.ref && e.ref in t.objects
            && t.objects[e.ref].score == 0 && t.objects[e.ref].list == []
            && (e.ref in Fresh(t, excluded) <==> e.id !in excluded)
  {
    assert e.ref == Next(w, e).group.backends[e.id];
  }

  /** Health and keyspace of a registered backend are what was reported last, and the fail list and its
      timeout what was configured last. */
  lemma {:induction false} ReportsTakeEffect(w: World, ref: Ref, healthy: bool, keyspace: string, targets: set<string>,
      timeout: Time)
    requires Inv(w) && ref in w.registered.Values && ref in w.group.objects
    ensures Next(w, Observe(ref, healthy)).group.objects[ref].observedHealthy == healthy
    ensures Next(w, Relabel(ref, keyspace)).group.objects[ref].keyspace == keyspace
    ensures var t := Next(w, Configure(targets, timeout)).group; t.failTargets == targets && t.failTimeout == timeout
  {
  }
}
