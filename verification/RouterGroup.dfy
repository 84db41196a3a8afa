/** The group as an object: its tables, and its methods with their loops. Every method is a
    sequence of events of the group model. */
module RouterGroup {
  import opened Common
  import opened GroupModel
  import opened GroupInvariant
  import opened GroupFailover

  const REBALANCE_INTERVAL: nat := 10_000_000

  /** How many connections one round may migrate at this interval between migrations. */
  function RoundQuota(interval: nat, now: Time, last: Option<Time>): nat
    requires interval > 0
  {
    if interval < REBALANCE_INTERVAL * 2 then (REBALANCE_INTERVAL - 1) / interval + 1
    else if last.None? || now - last.value >= interval then 1
    else 0
  }

  /** Fast migration fills each round and no more; slow migration moves one connection whenever its
      interval has passed. */
  lemma {:induction false} RoundQuotaPaces(interval: nat, now: Time, last: Option<Time>)
    requires interval > 0
    ensures var n := RoundQuota(interval, now, last);
            if interval < REBALANCE_INTERVAL * 2 then (n - 1) * interval < REBALANCE_INTERVAL <= n * interval
            else n <= 1 && (n == 1 <==> last.None? || now - last.value >= interval)
  {
    var q, r := (REBALANCE_INTERVAL - 1) / interval, (REBALANCE_INTERVAL - 1) % interval;
    assert q * interval + r == REBALANCE_INTERVAL - 1;
    assert (q + 1) * interval == q * interval + interval;
  }

  /** The attempts that one round makes, in list order: the redirectable ones, until `count` of
      them were accepted. */
  function Attempts(conns: map<ConnId, Conn>, list: seq<ConnId>, to: Ref, count: nat, now: Time,
      answer: ConnId -> bool): seq<Event>
    decreases |list|
  {
    if list == [] || count == 0 then []
    else if list[0] !in conns || !Redirectable(conns[list[0]], now)
    then Attempts(conns, list[1..], to, count, now, answer)
    else
      [Attempt(list[0], to, now, answer(list[0]))]
        + Attempts(conns, list[1..], to, if answer(list[0]) then count - 1 else count, now, answer)
  }

  /** What the policy chose, with the interval between two migrations that its count asks for. */
  datatype Choice = Choice(from: Ref, to: Ref, interval: nat)

  /** The attempts of one round that is cancelled after it looked at `reach` connections, if the
      list is that long. */
  function RoundOf(g: Group, choice: Option<Choice>, reach: nat, now: Time, last: Option<Time>,
      answer: ConnId -> bool): seq<Event>
    requires choice.Some? ==>
        choice.value.from in g.objects && choice.value.to in g.objects && choice.value.interval > 0
  {
    if choice.None? || g.objects[choice.value.from].keyspace != g.objects[choice.value.to].keyspace then []
    else
      var list, count := g.objects[choice.value.from].list, RoundQuota(choice.value.interval, now, last);
      Attempts(g.conns, list[..Min(reach, |list|)], choice.value.to, count, now, answer)
  }

  /** The healthy backends of the group that were not tried yet. */
  function Fresh(g: Group, excluded: set<string>): set<Ref> {
    set x | x in g.backends.Values && x in g.objects && Healthy(g.objects[x]) && g.objects[x].id !in excluded
  }

  lemma {:induction false} FreshMeans(g: Group, excluded: set<string>)
    ensures Fresh(g, excluded) != {} <==>
            exists x :: && x in g.backends.Values && x in g.objects && g.objects[x].observedHealthy
                        && g.objects[x].failoverSince.None? && g.objects[x].id !in excluded
  {
    if x :| && x in g.backends.Values && x in g.objects && g.objects[x].observedHealthy
            && g.objects[x].failoverSince.None? && g.objects[x].id !in excluded {
      assert x in Fresh(g, excluded);
    }
    if Fresh(g, excluded) != {} {
      var x :| x in Fresh(g, excluded);
      assert Healthy(g.objects[x]);
    }
  }

  /** The connections that a sweep asks to close: those on a backend of the group whose
      failover timed out, unless they are closed or closing already. */
  predicate Overdue(w: World, c: ConnId, now: Time) {
    && Enabled(w, ForceClose(c, now, true))
    && w.group.conns[c].physical.value in w.group.backends.Values
  }

  /** The connections after the sweep reached those in `swept`. */
  function Swept(w: World, swept: set<ConnId>, now: Time, answer: ConnId -> bool): map<ConnId, Conn> {
    map c | c in w.group.conns ::
      if c in swept && Overdue(w, c, now) && answer(c) then w.group.conns[c].(forceClosing := true)
      else w.group.conns[c]
  }

  /** The sweep reached the connections in `swept`, and has the backends in `rest` to do. */
  ghost predicate Reached(w: World, swept: set<ConnId>, rest: set<Ref>, now: Time) {
    && (forall c :: c in swept ==>
        c in w.group.conns && w.group.conns[c].physical.Some? && w.group.conns[c].physical.value !in rest)
    && (forall c :: c in w.group.conns && c !in swept && Overdue(w, c, now) ==> w.group.conns[c].physical.value in rest)
  }

  lemma {:induction false} SweptPlaces(w: World, swept: set<ConnId>, now: Time, answer: ConnId -> bool, c: ConnId)
    requires c in w.group.conns
    ensures c in Swept(w, swept, now, answer) && Swept(w, swept, now, answer)[c].physical == w.group.conns[c].physical
  {
  }

  lemma {:induction false} SweptNone(w: World, now: Time, answer: ConnId -> bool)
    ensures Swept(w, {}, now, answer) == w.group.conns && Reached(w, {}, w.group.backends.Values, now)
  {
  }

  lemma {:induction false} SweptAll(w: World, swept: set<ConnId>, now: Time, answer: ConnId -> bool)
    requires Reached(w, swept, {}, now)
    ensures Swept(w, swept, now, answer) == Swept(w, w.group.conns.Keys, now, answer)
  {
  }

  /** The backends with failover updated, but for those in `rest`. */
  ghost predicate Updated(g: Group, objects: map<Ref, Backend>, rest: set<Ref>, active: set<Ref>, now: Time) {
    && objects.Keys == g.objects.Keys
    && forall r :: r in g.objects ==>
         objects[r] == if r in g.backends.Values
             && r !in rest then SetFailover(g.objects[r], r in active, now) else g.objects[r]
  }

  lemma {:induction false} UpdatedAll(g: Group, objects: map<Ref, Backend>, active: set<Ref>, now: Time)
    requires Updated(g, objects, {}, active, now)
    ensures objects == FailoverStep(g, active, now).objects
  {
  }

  /** A sequence of enabled events leads from one world to another. */
  ghost predicate Leads(w: World, events: seq<Event>, v: World)
    decreases |events|
  {
    if events == [] then v == w
    else
      && TablesOk(w.group, w.registered) && OwnersOk(w.group) && Enabled(w, events[0])
      && Leads(Next(w, events[0]), events[1..], v)
  }

  lemma {:induction false} LeadsSnoc(w: World, events: seq<Event>, v: World, e: Event)
    requires Leads(w, events, v)
    requires TablesOk(v.group, v.registered) && OwnersOk(v.group) && Enabled(v, e)
    ensures Leads(w, events + [e], Next(v, e))
    decreases |events|
  {
    if events == [] {
      assert Leads(Next(w, e), [e][1..], Next(v, e));
      assert [] + [e] == [e];
    } else {
      LeadsSnoc(Next(w, events[0]), events[1..], v, e);
      assert (events + [e])[1..] == events[1..] + [e];
    }
  }

  /** What an attempt on one connection leaves alone. */
  lemma {:induction false} AttemptLeaves(w: World, c: ConnId, to: Ref, now: Time, accepted: bool)
    requires OwnersKnown(w.group, c) && w.group.conns[c].physical.Some? && to in w.group.objects
    ensures var v := AttemptStep(w, c, to, now, accepted);
            && v.group.backends == w.group.backends && v.registered == w.registered
                && v.group.objects.Keys == w.group.objects.Keys
            && (forall r :: r in w.group.objects ==>
                  && v.group.objects[r].list == w.group.objects[r].list
                      && v.group.objects[r].id == w.group.objects[r].id
                  && v.group.objects[r].keyspace == w.group.objects[r].keyspace)
            && (forall x :: x != c ==>
                (x in v.group.conns <==> x in w.group.conns) && (x in w.group.conns ==>
                  v.group.conns[x] == w.group.conns[x]))
  {
  }

  /** During a round: the connections from position k on are as they were, and the two
      backends still are what the policy chose. */
  ghost predicate Underway(g0: Group, v: World, k: nat, from: Ref, to: Ref) {
    var g := v.group;
    && from in g0.objects && from in g.objects && g.objects[from].list == g0.objects[from].list
    && to in g.objects && to in v.registered.Values
    && g.objects[from].keyspace == g.objects[to].keyspace
    && k <= |g0.objects[from].list|
    && forall i :: k <= i < |g0.objects[from].list| ==>
         var c := g0.objects[from].list[i];
         c in g0.conns && c in g.conns && g.conns[c] == g0.conns[c]
  }

  lemma {:induction false} StartRound(w: World, from: Ref, to: Ref)
    requires Inv(w) && from in w.group.objects && to in w.group.objects && to in w.registered.Values
    requires w.group.objects[from].keyspace == w.group.objects[to].keyspace
    ensures Underway(w.group, w, 0, from, to)
  {
    assert ListOk(w.group, from);
    var list := w.group.objects[from].list;
    assert forall i :: 0 <= i < |list| ==> list[i] in list;
  }

  lemma {:induction false} UnderwayList(g0: Group, v: World, k: nat, from: Ref, to: Ref)
    requires Underway(g0, v, k, from, to)
    ensures from in g0.objects && from in v.group.objects && v.group.objects[from].list == g0.objects[from].list
    ensures k < |g0.objects[from].list| ==> g0.objects[from].list[k] in g0.conns
  {
  }

  lemma {:induction false} SkipOne(g0: Group, v: World, k: nat, from: Ref, to: Ref)
    requires Underway(g0, v, k, from, to) && k < |g0.objects[from].list|
    ensures Underway(g0, v, k + 1, from, to)
  {
  }

  lemma {:induction false} AttemptOne(g0: Group, v: World, k: nat, from: Ref, to: Ref, now: Time, accepted: bool)
    requires Inv(v) && Underway(g0, v, k, from, to) && k < |g0.objects[from].list|
    requires Redirectable(v.group.conns[g0.objects[from].list[k]], now)
    ensures var e := Attempt(g0.objects[from].list[k], to, now, accepted);
            && Enabled(v, e) && OwnersKnown(v.group, e.conn) && v.group.conns[e.conn].physical == Some(from)
            && Inv(Next(v, e)) && Next(v, e) == AttemptStep(v, e.conn, to, now, accepted)
            && Underway(g0, Next(v, e), k + 1, from, to)
  {
    var list := g0.objects[from].list;
    var c := list[k];
    assert ListOk(v.group, from) && c in v.group.objects[from].list;
    assert OwnersKnown(v.group, c);
    AttemptLeaves(v, c, to, now, accepted);
    AttemptKeepsInv(v, c, to, now, accepted);
    assert forall i :: k < i < |list| ==> list[i] != c;
  }

  class RouterGroup {
    var objects: map<Ref, Backend>
    var backends: map<string, Ref>
    var conns: map<ConnId, Conn>
    var failTargets: set<string>
    var failTimeout: Time
    var ignoreFailover: bool
    var lastRedirectTime: Option<Time>

    /** The fields beside the tables. */
    function Settings(): (bool, Option<Time>)
      reads this
    {
      (ignoreFailover, lastRedirectTime)
    }

    function View(): Group
      reads this
    {
      Group(objects, backends, conns, failTargets, failTimeout)
    }

    constructor ()
      ensures View() == EMPTY.group && !ignoreFailover && lastRedirectTime == None
    {
      objects, backends, conns := map[], map[], map[];
      failTargets, failTimeout, ignoreFailover, lastRedirectTime := {}, 0, false, None;
    }

    // The helpers below change what their model functions change.

    method TransferConnScore(c: ConnId, to: Option<Ref>)
      requires OwnersKnown(View(), c) && (to.Some? ==> to.value in objects)
      modifies this
      ensures View() == TransferScore(old(View()), c, to) && Settings() == old(Settings())
    {
      var owner := conns[c].scorer;
      if owner.Some? {
        objects := objects[owner.value := objects[owner.value].(score := objects[owner.value].score - 1)];
      }
      conns := conns[c := conns[c].(scorer := to)];
      if to.Some? {
        objects := objects[to.value := objects[to.value].(score := objects[to.value].score + 1)];
      }
    }

    method TakeOffList(c: ConnId)
      requires OwnersKnown(View(), c)
      modifies this
      ensures View() == RemoveConn(old(View()), c) && Settings() == old(Settings())
    {
      var owner := conns[c].physical;
      if owner.None? { return; }
      objects := objects[owner.value := objects[owner.value].(list := Without(objects[owner.value].list, c))];
      conns := conns[c := conns[c].(physical := None)];
    }

    method PutOnList(r: Ref, c: ConnId)
      requires c in conns && r in objects
      modifies this
      ensures View() == AddConn(old(View()), r, c) && Settings() == old(Settings())
    {
      conns := conns[c := conns[c].(physical := Some(r))];
      objects := objects[r := objects[r].(list := objects[r].list + [c])];
    }

    method LookupOrRecover(id: string, spare: Ref) returns (r: Ref)
      modifies this
      ensures (View(), r) == EnsureBackend(old(View()), id, spare) && Settings() == old(Settings())
    {
      if id in backends { return backends[id]; }
      objects := objects[spare := Backend(id, "", "", "", false, None, 0, [])];
      backends := backends[id := spare];
      r := spare;
    }

    method EnterPhase(c: ConnId, phase: Phase)
      requires c in conns
      modifies this
      ensures View() == SetPhase(old(View()), c, phase) && Settings() == old(Settings())
    {
      conns := conns[c := conns[c].(phase := phase)];
    }

    method RemoveBackendIfIdle(id: string, ghost w: World) returns (removed: bool, empty: bool)
      requires w.group == View() && Inv(w) && Enabled(w, RemoveIfIdle(id))
      modifies this
      ensures View() == Next(w, RemoveIfIdle(id)).group
      ensures removed <==> !Busy(w.group, w.reserved, w.registered[id])
      ensures empty <==> removed && backends == map[]
    {
      assert ScoreOk(w.group, w.reserved, w.registered[id]);
      var b := objects[backends[id]];
      if |b.list| != 0 || b.score > 0 {
        return false, false;
      }
      backends := backends - {id};
      return true, |backends| == 0;
    }

    /** Collects the healthy backends that were not tried yet. */
    method Untried(excluded: set<string>) returns (r: set<Ref>)
      requires forall id :: id in backends ==> backends[id] in objects
      ensures r == Fresh(View(), excluded)
    {
      r := {};
      var rest := backends.Values;
      while rest != {}
        invariant rest <= backends.Values
        invariant r == set x | x in backends.Values && x !in rest && x in objects && Healthy(objects[x])
            && objects[x].id !in excluded
        decreases |rest|
      {
        var x :| x in rest;
        rest := rest - {x};
        if Healthy(objects[x]) && objects[x].id !in excluded {
          r := r + {x};
        }
      }
    }

    /** Routes to one backend of the policy's choice and reserves it. */
    method Route(excluded: set<string>, policy: set<Ref> -> Option<Ref>, ghost w: World) returns (chosen: Option<Ref>)
      requires w.group == View() && Inv(w)
      requires forall s :: policy(s).Some? ==> policy(s).value in s
      modifies this
      ensures chosen.Some? ==>
                && Enabled(w, Reserve(chosen.value)) && w.group.objects[chosen.value].id !in excluded
                && View() == Next(w, Reserve(chosen.value)).group
      ensures chosen.None? ==> View() == old(View())
      ensures chosen == if old(backends) == map[] then None else policy(Fresh(old(View()), excluded))
      ensures (forall s :: s != {} ==> policy(s).Some?) ==>
                (chosen.Some? <==> exists x :: && x in old(backends).Values && x in old(objects)
                                               && old(objects)[x].observedHealthy && old(objects)[x].failoverSince.None?
                                               && old(objects)[x].id !in excluded)
    {
      FreshMeans(View(), excluded);
      if backends == map[] {
        return None;
      }
      var candidates := Untried(excluded);
      chosen := policy(candidates);
      if chosen.Some? {
        assert Anchored(w, chosen.value);
        var b := objects[chosen.value];
        objects := objects[chosen.value := b.(score := b.score + 1)];
      }
    }

    /** Settles a reservation. The lookup finds the reserved object itself. */
    method OnCreateConn(ref: Ref, conn: ConnId, succeed: bool, spare: Ref, ghost w: World)
      requires w.group == View() && Inv(w) && Enabled(w, Finish(ref, conn, succeed, spare))
      modifies this
      ensures View() == Next(w, Finish(ref, conn, succeed, spare)).group
      ensures backends == old(backends)
    {
      BusyIsFound(w, ref, spare);
      var r := LookupOrRecover(objects[ref].id, spare);
      if succeed {
        conns := conns[conn := Conn(None, Some(r), NotRedirected, None, false)];
        PutOnList(r, conn);
      } else {
        objects := objects[r := objects[r].(score := objects[r].score - 1)];
      }
    }

    method OnConnClosed(c: ConnId, ghost w: World)
      requires w.group == View() && Inv(w) && c in conns
      modifies this
      ensures View() == Next(w, Close(c)).group
    {
      assert OwnersKnown(w.group, c);
      TransferConnScore(c, None);
      TakeOffList(c);
      EnterPhase(c, Closed);
    }

    /** Settles a redirect. Both endpoints are looked up before the phase is. */
    method OnRedirectFinished(from: string, to: string, c: ConnId, succeed: bool, spareFrom: Ref, spareTo: Ref,
        ghost w: World)
      requires w.group == View() && Inv(w) && Enabled(w, Result(c, succeed, spareFrom, spareTo))
      requires w.inFlight[c] == Redirect(from, to)
      modifies this
      ensures View() == Next(w, Result(c, succeed, spareFrom, spareTo)).group
      ensures old(conns)[c].phase != Closed ==> backends == old(backends)
    {
      assert OwnersKnown(w.group, c);
      if conns[c].phase != Closed {
        EndpointsFound(w, c, spareFrom, spareTo);
      }
      var fromRef := LookupOrRecover(from, spareFrom);
      var toRef := LookupOrRecover(to, spareTo);
      if conns[c].phase == Closed {
        return;
      }
      if succeed {
        TakeOffList(c);
        PutOnList(toRef, c);
        EnterPhase(c, RedirectEnd);
      } else {
        TransferConnScore(c, Some(fromRef));
        EnterPhase(c, RedirectFail);
      }
    }

    /** Starts one redirect, unless the connection or the keyspace guard turns it down. */
    method RedirectConn(c: ConnId, to: Ref, now: Time, accepted: bool, ghost w: World) returns (ok: bool)
      requires w.group == View() && OwnersKnown(View(), c) && conns[c].physical.Some? && to in objects
      modifies this
      ensures View() == AttemptStep(w, c, to, now, accepted).group && Settings() == old(Settings())
      ensures ok <==> accepted && old(objects)[old(conns)[c].physical.value].keyspace == old(objects)[to].keyspace
    {
      if objects[conns[c].physical.value].keyspace != objects[to].keyspace {
        conns := conns[c := conns[c].(phase := RedirectFail, lastRedirect := Some(now))];
        return false;
      }
      if accepted {
        TransferConnScore(c, Some(to));
        conns := conns[c := conns[c].(phase := RedirectNotify, lastRedirect := Some(now))];
      } else {
        conns := conns[c := conns[c].(phase := RedirectFail, lastRedirect := Some(now))];
      }
      ok := accepted;
    }

    /** Collects the backends that the fail list names. */
    method OnFailList() returns (r: set<Ref>)
      requires forall id :: id in backends ==> backends[id] in objects
      ensures r == Listed(View())
    {
      r := {};
      var rest := backends.Values;
      while rest != {}
        invariant rest <= backends.Values
        invariant r == set x | x in backends.Values && x !in rest && x in objects && InFailList(View(), objects[x])
        decreases |rest|
      {
        var x :| x in rest;
        rest := rest - {x};
        if InFailList(View(), objects[x]) {
          r := r + {x};
        }
      }
    }

    /** Enters and leaves failover, backend by backend. */
    method SetFailovers(active: set<Ref>, now: Time)
      requires forall id :: id in backends ==> backends[id] in objects
      modifies this`objects
      ensures objects == FailoverStep(old(View()), active, now).objects
    {
      hide FailoverStep, SetFailover;
      ghost var g := View();
      var rest := backends.Values;
      while rest != {}
        invariant rest <= backends.Values && Updated(g, objects, rest, active, now)
        decreases |rest|
      {
        var x :| x in rest;
        rest := rest - {x};
        objects := objects[x := SetFailover(objects[x], x in active, now)];
      }
      UpdatedAll(g, objects, active, now);
    }

    /** Puts the fail list in force, or ignores it when it would leave nothing to route to. */
    method UpdateFailover(policy: Policy, now: Time)
      requires forall id :: id in backends ==> backends[id] in objects
      modifies this
      ensures View() == FailoverStep(old(View()), ActiveFailover(old(View()), policy), now)
      ensures ignoreFailover <==> IgnoreList(old(View()), policy)
    {
      var active := OnFailList();
      ignoreFailover := false;
      if policy(Candidates(View(), {})) != {} {
        if policy(Candidates(View(), active)) == {} {
          ignoreFailover, active := true, {};
        }
      }
      SetFailovers(active, now);
    }

    /** Asks one connection to close. */
    method CloseOne(c: ConnId, now: Time, answer: ConnId -> bool, ghost w: World, ghost swept: set<ConnId>)
      requires View() == w.group.(conns := conns) && conns == Swept(w, swept, now, answer) && c in conns && c !in swept
      requires conns[c].physical.Some? && conns[c].physical.value in objects
          && conns[c].physical.value in backends.Values
      requires TimedOut(objects[conns[c].physical.value], failTimeout, now)
      modifies this`conns
      ensures conns == Swept(w, swept + {c}, now, answer)
    {
      if conns[c].phase != Closed && !conns[c].forceClosing && answer(c) {
        conns := conns[c := conns[c].(forceClosing := true)];
      }
    }

    /** Asks every connection of one timed-out backend to close. */
    method CloseBackend(r: Ref, now: Time, answer: ConnId -> bool, ghost w: World, ghost swept: set<ConnId>)
      returns (ghost more: set<ConnId>)
      requires View() == w.group.(conns := conns) && conns == Swept(w, swept, now, answer)
      requires r in objects && r in backends.Values && ListOk(w.group, r) && TimedOut(objects[r], failTimeout, now)
      requires forall c :: c in swept ==> c in w.group.conns && w.group.conns[c].physical != Some(r)
      modifies this`conns
      ensures conns == Swept(w, more, now, answer)
      ensures forall c :: c in more <==> c in swept || (c in w.group.conns && w.group.conns[c].physical == Some(r))
    {
      hide Swept;
      var list, k := objects[r].list, 0;
      more := swept;
      while k < |list|
        invariant k <= |list| && conns == Swept(w, more, now, answer)
        invariant forall c :: c in more <==> c in swept || c in list[..k]
      {
        var c := list[k];
        assert c in list && c !in list[..k];
        SweptPlaces(w, more, now, answer, c);
        assert list[..k + 1] == list[..k] + [c];
        CloseOne(c, now, answer, w, more);
        more, k := more + {c}, k + 1;
      }
      assert list[..k] == list;
    }

    /** Asks to close exactly the connections that are overdue, each of them once. */
    method CloseTimedOutFailoverConnections(now: Time, answer: ConnId -> bool, ghost w: World)
      requires w.group == View() && ListsOk(w.group) && forall id :: id in backends ==> backends[id] in objects
      modifies this`conns
      ensures conns == Swept(w, w.group.conns.Keys, now, answer)
    {
      hide Swept;
      var rest := backends.Values;
      ghost var swept: set<ConnId> := {};
      SweptNone(w, now, answer);
      while rest != {}
        invariant rest <= backends.Values && conns == Swept(w, swept, now, answer) && Reached(w, swept, rest, now)
        decreases |rest|
      {
        var r :| r in rest;
        assert ListOk(w.group, r);
        if TimedOut(objects[r], failTimeout, now) {
          swept := CloseBackend(r, now, answer, w, swept);
        }
        rest := rest - {r};
      }
      SweptAll(w, swept, now, answer);
    }

    /** One connection of a round: skipped, or attempted. */
    method RoundOne(k: nat, from: Ref, to: Ref, now: Time, accepted: bool, ghost w: World, ghost events: seq<Event>,
        ghost v: World)
      returns (ok: bool, ghost more: seq<Event>, ghost u: World)
      requires Leads(w, events, v) && Inv(v) && v.group == View() && Underway(w.group, v, k, from, to)
      requires k < |w.group.objects[from].list| && objects[from].list == w.group.objects[from].list
      modifies this
      ensures Settings() == old(Settings())
      ensures Leads(w, more, u) && Inv(u) && u.group == View() && Underway(w.group, u, k + 1, from, to)
      ensures var c := w.group.objects[from].list[k];
              if Redirectable(w.group.conns[c], now)
              then more == events + [Attempt(c, to, now, accepted)] && ok == accepted
              else more == events && !ok
    {
      var c := objects[from].list[k];
      if !Redirectable(conns[c], now) {
        SkipOne(w.group, v, k, from, to);
        return false, events, v;
      }
      AttemptOne(w.group, v, k, from, to, now, accepted);
      LeadsSnoc(w, events, v, Attempt(c, to, now, accepted));
      ok := RedirectConn(c, to, now, accepted, v);
      more, u := events + [Attempt(c, to, now, accepted)], Next(v, Attempt(c, to, now, accepted));
    }

    /** The loop of a round: attempts in list order until `count` of them were accepted. */
    method Round(list: seq<ConnId>, from: Ref, to: Ref, count: nat, now: Time, answer: ConnId -> bool, ghost w: World)
      returns (moved: nat, ghost events: seq<Event>, ghost v: World)
      requires w.group == View() && Inv(w) && Leads(w, [], w)
      requires from in objects && list <= objects[from].list && Underway(w.group, w, 0, from, to)
      modifies this
      ensures Leads(w, events, v) && Inv(v) && v.group == View() && lastRedirectTime == old(lastRedirectTime)
      ensures events == Attempts(w.group.conns, list, to, count, now, answer)
      ensures moved <= count && moved <= |events|
    {
      hide Inv, Leads, Underway, Attempts, Splits;
      moved, events, v := 0, [], w;
      var k := 0;
      ghost var whole := Attempts(w.group.conns, list, to, count, now, answer);
      SplitsAtStart(w.group.conns, list, to, count, now, answer);
      while k < |list| && moved < count
        invariant k <= |list| && moved <= count && moved <= |events| && lastRedirectTime == old(lastRedirectTime)
        invariant Leads(w, events, v) && Inv(v) && v.group == View() && Underway(w.group, v, k, from, to)
        invariant Splits(events, w.group.conns, list, k, to, count - moved, now, answer, whole)
      {
        var ok;
        ghost var more;
        UnderwayList(w.group, v, k, from, to);
        ok, more, v := RoundOne(k, from, to, now, answer(list[k]), w, events, v);
        var next := if ok then moved + 1 else moved;
        SplitsAfterOne(events, w.group.conns, list, k, to, count - moved, now, answer, whole, more, count - next);
        moved, events, k := next, more, k + 1;
      }
      SplitsAtEnd(events, w.group.conns, list, k, to, count - moved, now, answer, whole);
    }

    /** One round, given the policy's choice: nothing without one or across keyspaces; else the
        quota of the interval, in list order, until the context is cancelled after `reach`
        connections. A target that is registered need not be healthy any more. */
    method Balance(choice: Option<Choice>, reach: nat, now: Time, answer: ConnId -> bool, ghost w: World)
      returns (moved: nat, ghost events: seq<Event>, ghost v: World)
      requires w.group == View() && Inv(w)
      requires choice.Some? ==>
          choice.value.from in objects && choice.value.to in objects && choice.value.to in w.registered.Values
            && choice.value.interval > 0
      modifies this
      ensures Leads(w, events, v) && Inv(v) && v.group == View()
      ensures events == RoundOf(old(View()), choice, reach, now, old(lastRedirectTime), answer)
      ensures moved <= |events|
          && (choice.Some? ==> moved <= RoundQuota(choice.value.interval, now, old(lastRedirectTime)))
      ensures lastRedirectTime == if moved > 0 then Some(now) else old(lastRedirectTime)
    {
      assert Leads(w, [], w);
      hide Inv, Leads, Underway, Attempts, RoundQuota;
      moved, events, v := 0, [], w;
      if choice.None? {
        return;
      }
      var Choice(from, to, interval) := choice.value;
      if objects[from].keyspace != objects[to].keyspace {
        return;
      }
      var count := RoundQuota(interval, now, lastRedirectTime);
      StartRound(w, from, to);
      var list := objects[from].list;
      moved, events, v := Round(list[..Min(reach, |list|)], from, to, count, now, answer, w);
      if moved > 0 {
        lastRedirectTime := Some(now);
      }
    }
  }

  /** What was done, and what is left from position k on, make up the whole round. */
  ghost predicate Splits(done: seq<Event>, conns: map<ConnId, Conn>, list: seq<ConnId>, k: nat, to: Ref, left: nat,
      now: Time, answer: ConnId -> bool, whole: seq<Event>) {
    k <= |list| && done + Attempts(conns, list[k..], to, left, now, answer) == whole
  }

  lemma {:induction false} SplitsAtStart(conns: map<ConnId, Conn>, list: seq<ConnId>, to: Ref, count: nat, now: Time,
      answer: ConnId -> bool)
    ensures Splits([], conns, list, 0, to, count, now, answer, Attempts(conns, list, to, count, now, answer))
  {
    assert list[0..] == list;
  }

  /** Nothing is left to do at the end of the list, or of the quota. */
  lemma {:induction false} SplitsAtEnd(done: seq<Event>, conns: map<ConnId, Conn>, list: seq<ConnId>, k: nat, to: Ref,
      left: nat, now: Time, answer: ConnId -> bool, whole: seq<Event>)
    requires Splits(done, conns, list, k, to, left, now, answer, whole) && (k == |list| || left == 0)
    ensures done == whole
  {
  }

  lemma {:induction false} SplitsAfterOne(done: seq<Event>, conns: map<ConnId, Conn>, list: seq<ConnId>, k: nat,
      to: Ref, count: nat, now: Time, answer: ConnId -> bool, whole: seq<Event>,
                                          more: seq<Event>, left: nat)
    requires Splits(done, conns, list, k, to, count, now, answer, whole) && k < |list| && count > 0 && list[k] in conns
    requires if Redirectable(conns[list[k]], now)
             then more == done + [Attempt(list[k], to, now, answer(list[k]))]
                  && left == if answer(list[k]) then count - 1 else count
             else more == done && left == count
    ensures Splits(more, conns, list, k + 1, to, left, now, answer, whole)
  {
    assert list[k..][0] == list[k] && list[k..][1..] == list[k + 1..];
    if Redirectable(conns[list[k]], now) {
      var e, rest := Attempt(list[k], to, now, answer(list[k])), Attempts(conns, list[k + 1..], to, left, now, answer);
      assert Attempts(conns, list[k..], to, count, now, answer) == [e] + rest;
      assert (done + [e]) + rest == done + ([e] + rest);
    }
  }
}
