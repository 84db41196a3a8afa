/** Whole runs of a group: accounting, ownership, removal and redirect safety. */
module GroupRuns {
  import opened Common
  import opened GroupModel
  import opened GroupInvariant

  ghost function Step(w: World, e: Event): World
    requires Enabled(w, e)
  {
    if TablesOk(w.group, w.registered) && OwnersOk(w.group) then Next(w, e) else w
  }

  ghost predicate Run(trace: seq<World>, events: seq<Event>) {
    && |trace| == |events| + 1 && trace[0] == EMPTY
    && forall i :: 0 <= i < |events| ==> Enabled(trace[i], events[i]) && trace[i + 1] == Step(trace[i], events[i])
  }

  lemma {:induction false} EmptyInv()
    ensures Inv(EMPTY)
  {
  }

  lemma {:induction false} RunKeepsInv(trace: seq<World>, events: seq<Event>, i: nat)
    requires Run(trace, events) && i < |trace|
    ensures Inv(trace[i])
    decreases i
  {
    if i == 0 {
      EmptyInv();
    } else {
      RunKeepsInv(trace, events, i - 1);
      assert Enabled(trace[i - 1], events[i - 1]) && trace[i - 1 + 1] == Step(trace[i - 1], events[i - 1]);
      StepKeepsInv(trace[i - 1], events[i - 1]);
    }
  }

  lemma {:induction false} RunSteps(trace: seq<World>, events: seq<Event>, i: nat)
    requires Run(trace, events) && i < |events|
    ensures Inv(trace[i]) && Enabled(trace[i], events[i]) && trace[i + 1] == Next(trace[i], events[i])
  {
    RunKeepsInv(trace, events, i);
  }

  // -------------------------------------------------------------- accounting

  /** In every reachable state a score is the number of connections scored to the backend plus
      its outstanding reservations, and its list holds exactly its connections, once each. */
  lemma {:induction false} ScoreAccounting(trace: seq<World>, events: seq<Event>, i: nat, r: Ref)
    requires Run(trace, events) && i < |trace| && r in trace[i].group.objects
    ensures var g := trace[i].group;
            && g.objects[r].score == |Scored(g.conns, r)| + trace[i].reserved[r]
            && g.objects[r].score >= 0
            && NoDuplicates(g.objects[r].list)
            && forall c :: c in g.objects[r].list <==> c in g.conns && g.conns[c].physical == Some(r)
  {
    RunKeepsInv(trace, events, i);
    assert ScoreOk(trace[i].group, trace[i].reserved, r) && ListOk(trace[i].group, r);
  }

  /** Outside the notify and closed phases both owners agree; a closed connection has none. */
  lemma {:induction false} OwnersFollowPhase(trace: seq<World>, events: seq<Event>, i: nat, c: ConnId)
    requires Run(trace, events) && i < |trace| && c in trace[i].group.conns
    ensures var k := trace[i].group.conns[c];
            && (k.phase == Closed <==> k.physical.None? && k.scorer.None?)
            && (k.phase != Closed <==> k.physical.Some? && k.scorer.Some?)
            && (k.phase != RedirectNotify ==> k.physical == k.scorer)
            && (k.phase == RedirectNotify ==>
                  && OwnersKnown(trace[i].group, c) && c in trace[i].inFlight
                  && trace[i].inFlight[c].from == trace[i].group.objects[k.physical.value].id
                  && trace[i].inFlight[c].to == trace[i].group.objects[k.scorer.value].id)
  {
    RunKeepsInv(trace, events, i);
    assert PhaseOk(trace[i].group.conns[c]);
    assert FlightOk(trace[i].group, trace[i].inFlight, c);
  }

  /** A repeated close changes nothing, and a late result changes no connection and no account. */
  lemma {:induction false} LateEventsChangeNoCount(trace: seq<World>, events: seq<Event>, i: nat, c: ConnId, e: Event)
    requires Run(trace, events) && i < |trace| && Enabled(trace[i], e)
    requires c in trace[i].group.conns && trace[i].group.conns[c].phase == Closed
    requires e == Close(c) || (e.Result? && e.conn == c)
    ensures e.Close? ==> Step(trace[i], e) == trace[i]
    ensures e.Result? ==> Extends(trace[i].group, Step(trace[i], e).group)
  {
    var w := trace[i];
    RunKeepsInv(trace, events, i);
    assert OwnersKnown(w.group, c) && PhaseOk(w.group.conns[c]);
    if e.Result? {
      LateResultKeepsInv(w, c, e.succeed, e.spareFrom, e.spareTo);
    } else {
      assert w.group.conns[c := w.group.conns[c]] == w.group.conns;
    }
  }

  // ----------------------------------------------------------------- removal

  /** A removal request removes exactly the idle: never a backend with a listed, scored or
      reserved connection. */
  lemma {:induction false} OnlyIdleIsRemoved(trace: seq<World>, events: seq<Event>, i: nat, id: string)
    requires Run(trace, events) && i < |trace| && Enabled(trace[i], RemoveIfIdle(id))
    ensures var w, v, r := trace[i], Step(trace[i], RemoveIfIdle(id)), trace[i].registered[id];
            if Busy(w.group, w.reserved, r) then v == w
            else id !in v.registered && id !in v.group.backends && v.group.objects == w.group.objects
  {
    var w := trace[i];
    RunKeepsInv(trace, events, i);
    assert ScoreOk(w.group, w.reserved, w.registered[id]);
  }

  /** The recovery branch of the lookup is unreachable for reserved backends, and for both
      endpoints of a redirect whose connection is open. */
  lemma {:induction false} NoRecoveryWhileInUse(trace: seq<World>, events: seq<Event>, i: nat, e: Event)
    requires Run(trace, events) && i < |trace| && Enabled(trace[i], e)
    ensures e.Finish? ==>
        EnsureBackend(trace[i].group, trace[i].group.objects[e.ref].id, e.spare) == (trace[i].group, e.ref)
    ensures e.Result? && trace[i].group.conns[e.conn].phase != Closed ==>
              var g, k := trace[i].group, trace[i].group.conns[e.conn];
              && k.physical.Some?
              && EnsureBackend(g, trace[i].inFlight[e.conn].from, e.spareFrom) == (g, k.physical.value)
              && k.scorer.Some? && EnsureBackend(g, trace[i].inFlight[e.conn].to, e.spareTo) == (g, k.scorer.value)
  {
    RunKeepsInv(trace, events, i);
    if e.Finish? {
      BusyIsFound(trace[i], e.ref, e.spare);
    } else if e.Result? && trace[i].group.conns[e.conn].phase != Closed {
      EndpointsFound(trace[i], e.conn, e.spareFrom, e.spareTo);
    }
  }

  /** A late result does reach it: exactly when an endpoint has left the group meanwhile, the
      result puts a placeholder back under that ID. */
  lemma {:induction false} LateResultRevives(trace: seq<World>, events: seq<Event>, i: nat, e: Event)
    requires Run(trace, events) && i < |trace| && Enabled(trace[i], e)
    requires e.Result? && trace[i].group.conns[e.conn].phase == Closed
    ensures var w, v := trace[i], Step(trace[i], e);
            && (v.group.backends != w.group.backends <==>
                  w.inFlight[e.conn].from !in w.group.backends || w.inFlight[e.conn].to !in w.group.backends)
            && v.group.backends.Keys == w.group.backends.Keys + {w.inFlight[e.conn].from, w.inFlight[e.conn].to}
            && v.registered == w.registered
  {
    RunKeepsInv(trace, events, i);
    assert OwnersKnown(trace[i].group, e.conn);
  }

  lemma {:induction false} ResultTables(w: World, c: ConnId, succeed: bool, spareFrom: Ref, spareTo: Ref, id: string)
    requires OwnersKnown(w.group, c) && c in w.inFlight && id in w.group.backends
    requires forall x :: x in w.group.backends ==> w.group.backends[x] in w.group.objects
    ensures var v := ResultStep(w, c, succeed, spareFrom, spareTo);
            id in v.group.backends && v.group.backends[id] == w.group.backends[id] && v.registered == w.registered
  {
  }

  lemma {:induction false} AttemptTables(w: World, c: ConnId, to: Ref, now: Time, accepted: bool)
    requires OwnersKnown(w.group, c) && w.group.conns[c].physical.Some? && to in w.group.objects
    ensures var v := AttemptStep(w, c, to, now, accepted);
            v.group.backends == w.group.backends && v.registered == w.registered
  {
  }

  lemma {:induction false} FinishTables(w: World, ref: Ref, conn: ConnId, succeed: bool, spare: Ref, id: string)
    requires ref in w.group.objects && id in w.group.backends
    ensures var v := FinishStep(w, ref, conn, succeed, spare);
            id in v.group.backends && v.group.backends[id] == w.group.backends[id] && v.registered == w.registered
  {
  }

  /** The owners of every connection are known. */
  lemma {:induction false} InvOwners(w: World, c: ConnId)
    requires Inv(w) && c in w.group.conns
    ensures OwnersKnown(w.group, c)
  {
  }

  lemma {:induction false} CloseTables(g: Group, c: ConnId)
    requires OwnersKnown(g, c)
    ensures CloseStep(g, c).backends == g.backends
  {
  }

  /** Only registration and removal touch an ID that is in the tables. */
  lemma {:induction false} StepTables(w: World, e: Event, id: string)
    requires TablesOk(w.group, w.registered) && OwnersOk(w.group) && Enabled(w, e)
    requires id in w.group.backends && !(e.Register? && e.id == id) && !(e.RemoveIfIdle? && e.id == id)
    ensures id in Next(w, e).group.backends && Next(w, e).group.backends[id] == w.group.backends[id]
    ensures id in Next(w, e).registered <==> id in w.registered
  {
    hide ResultStep, AttemptStep, CloseStep, FinishStep;
    if e.Finish? {
      FinishTables(w, e.ref, e.conn, e.succeed, e.spare, id);
    } else if e.Result? {
      assert OwnersKnown(w.group, e.conn);
      ResultTables(w, e.conn, e.succeed, e.spareFrom, e.spareTo, id);
    } else if e.Attempt? {
      assert OwnersKnown(w.group, e.conn);
      AttemptTables(w, e.conn, e.to, e.now, e.accepted);
    } else if e.Close? {
      assert OwnersKnown(w.group, e.conn);
      CloseTables(w.group, e.conn);
    }
  }

  /** Such a placeholder is out of the router's reach: no event but a new registration of the
      ID takes it out of the group or makes it healthy. */
  lemma {:induction false} RevivedStays(trace: seq<World>, events: seq<Event>, i: nat, id: string)
    requires Run(trace, events) && i < |events|
    requires id in trace[i].group.backends && id !in trace[i].registered
    requires !(events[i].Register? && events[i].id == id)
    ensures var v := trace[i + 1];
            && id in v.group.backends && id !in v.registered && v.group.backends[id] == trace[i].group.backends[id]
            && v.group.backends[id] in v.group.objects && !v.group.objects[v.group.backends[id]].observedHealthy
  {
    RunSteps(trace, events, i);
    RunKeepsInv(trace, events, i + 1);
    StepTables(trace[i], events[i], id);
    assert Anchored(trace[i + 1], trace[i + 1].group.backends[id]);
  }

  // ------------------------------------------------------------- redirect safety

  /** An attempt never finds another redirect of the connection in flight. */
  lemma {:induction false} OneRedirectAtATime(trace: seq<World>, events: seq<Event>, i: nat)
    requires Run(trace, events) && i < |events| && events[i].Attempt?
    ensures events[i].conn !in trace[i].inFlight
  {
    RunSteps(trace, events, i);
    assert FlightOk(trace[i].group, trace[i].inFlight, events[i].conn);
    assert PhaseOk(trace[i].group.conns[events[i].conn]);
  }

  /** How a connection's own fields develop in one event that is not an attempt on it. */
  ghost predicate Settles(k: Conn, n: Conn) {
    && n.lastRedirect == k.lastRedirect
    && (k.forceClosing ==> n.forceClosing)
    && (k.phase == RedirectFail || k.phase == Closed ==> n.phase == k.phase || n.phase == Closed)
  }

  /** The connection an event is about, if it is about an existing one. */
  function Subject(e: Event): Option<ConnId> {
    if e.Attempt? || e.Result? || e.Close? || e.ForceClose? then Some(e.conn) else None
  }

  lemma {:induction false} FinishTouches(w: World, e: Event, c: ConnId)
    requires TablesOk(w.group, w.registered) && OwnersOk(w.group) && Enabled(w, e) && c in w.group.conns && e.Finish?
    ensures c in Next(w, e).group.conns && Next(w, e).group.conns[c] == w.group.conns[c]
  {
  }

  lemma {:induction false} ResultTouches(w: World, e: Event, c: ConnId)
    requires TablesOk(w.group, w.registered) && OwnersOk(w.group) && Enabled(w, e) && c in w.group.conns && e.Result?
        && e.conn != c
    ensures c in Next(w, e).group.conns && Next(w, e).group.conns[c] == w.group.conns[c]
  {
    assert OwnersKnown(w.group, e.conn);
  }

  /** An event leaves every connection alone but its subject. */
  lemma {:induction false} StepTouches(w: World, e: Event, c: ConnId)
    requires TablesOk(w.group, w.registered) && OwnersOk(w.group) && Enabled(w, e) && c in w.group.conns
        && Subject(e) != Some(c)
    ensures c in Next(w, e).group.conns && Next(w, e).group.conns[c] == w.group.conns[c]
  {
    hide ResultStep, FinishStep;
    if Quiet(e) {
      QuietExtends(w, e);
    } else if e.Finish? {
      FinishTouches(w, e, c);
    } else if e.Result? {
      ResultTouches(w, e, c);
    } else if !e.Reserve? {
      assert OwnersKnown(w.group, e.conn);
    }
  }

  /** The connection after an event about it that is not an attempt. */
  ghost predicate Follows(e: Event, k: Conn, n: Conn) {
    && (e.Close? ==> n == k.(physical := None, scorer := None, phase := Closed))
    && (e.ForceClose? ==> n == k.(forceClosing := n.forceClosing) && (k.forceClosing ==> n.forceClosing))
    && (e.Result? && k.phase == Closed ==> n == k)
    && (e.Result? && k.phase != Closed ==>
          n == if e.succeed then k.(physical := k.scorer, phase := RedirectEnd)
               else k.(scorer := k.physical, phase := RedirectFail))
  }

  lemma {:induction false} ResultFollows(w: World, e: Event)
    requires Inv(w) && Enabled(w, e) && e.Result?
    ensures e.conn in Next(w, e).group.conns && Follows(e, w.group.conns[e.conn], Next(w, e).group.conns[e.conn])
  {
    assert OwnersKnown(w.group, e.conn);
    if w.group.conns[e.conn].phase != Closed {
      EndpointsFound(w, e.conn, e.spareFrom, e.spareTo);
    }
  }

  lemma {:induction false} SubjectFollows(w: World, e: Event)
    requires Inv(w) && Enabled(w, e) && (e.Result? || e.Close? || e.ForceClose?)
    ensures e.conn in Next(w, e).group.conns && Follows(e, w.group.conns[e.conn], Next(w, e).group.conns[e.conn])
  {
    hide ResultStep;
    if e.Result? {
      ResultFollows(w, e);
    } else {
      assert OwnersKnown(w.group, e.conn);
    }
  }

  lemma {:induction false} StepSettles(w: World, e: Event, c: ConnId)
    requires Inv(w) && Enabled(w, e) && c in w.group.conns && !(e.Attempt? && e.conn == c)
    ensures c in Next(w, e).group.conns && Settles(w.group.conns[c], Next(w, e).group.conns[c])
  {
    if Subject(e) == Some(c) {
      hide Next;
      assert e.Result? ==> FlightOk(w.group, w.inFlight, e.conn);
      SubjectFollows(w, e);
    } else {
      hide Next;
      StepTouches(w, e, c);
    }
  }

  lemma {:induction false} AttemptConn(w: World, e: Event)
    requires Inv(w) && Enabled(w, e) && e.Attempt?
    ensures e.conn in Next(w, e).group.conns
    ensures Next(w, e).group.conns[e.conn].lastRedirect == Some(e.now)
    ensures Next(w, e).group.conns[e.conn].forceClosing == w.group.conns[e.conn].forceClosing
  {
  }

  lemma {:induction false} RunSettles(trace: seq<World>, events: seq<Event>, i: nat, c: ConnId)
    requires Run(trace, events) && i < |events| && c in trace[i].group.conns
    ensures c in trace[i + 1].group.conns
    ensures trace[i].group.conns[c].forceClosing ==> trace[i + 1].group.conns[c].forceClosing
    ensures !(events[i].Attempt? && events[i].conn == c) ==>
        Settles(trace[i].group.conns[c], trace[i + 1].group.conns[c])
  {
    RunSteps(trace, events, i);
    if events[i].Attempt? && events[i].conn == c {
      AttemptConn(trace[i], events[i]);
    } else {
      StepSettles(trace[i], events[i], c);
    }
  }

  lemma {:induction false} ForceClosingStays(trace: seq<World>, events: seq<Event>, i: nat, j: nat, c: ConnId)
    requires Run(trace, events) && i <= j < |trace|
    requires c in trace[i].group.conns && trace[i].group.conns[c].forceClosing
    ensures c in trace[j].group.conns && trace[j].group.conns[c].forceClosing
    decreases j
  {
    assert |trace| == |events| + 1;
    hide Run;
    if i < j {
      ForceClosingStays(trace, events, i, j - 1, c);
      RunSettles(trace, events, j - 1, c);
    }
  }

  /** After an accepted force-close a connection is never redirected again. */
  lemma {:induction false} NoRedirectAfterForceClose(trace: seq<World>, events: seq<Event>, i: nat, j: nat, c: ConnId)
    requires Run(trace, events) && i < j < |events|
    requires events[i].ForceClose? && events[i].conn == c && events[i].accepted
    ensures !(events[j].Attempt? && events[j].conn == c)
  {
    RunSteps(trace, events, i);
    ForceClosingStays(trace, events, i + 1, j, c);
    RunSteps(trace, events, j);
  }

  ghost predicate NoAttempt(events: seq<Event>, i: nat, j: nat, c: ConnId) {
    forall m :: i <= m < j && m < |events| ==> !(events[m].Attempt? && events[m].conn == c)
  }

  /** Between attempts the time of the last one stays, and so does its failure. */
  lemma {:induction false} QuietBetweenAttempts(trace: seq<World>, events: seq<Event>, i: nat, j: nat, c: ConnId)
    requires Run(trace, events) && i <= j < |trace| && NoAttempt(events, i, j, c) && c in trace[i].group.conns
    ensures c in trace[j].group.conns
    ensures trace[j].group.conns[c].lastRedirect == trace[i].group.conns[c].lastRedirect
    ensures trace[i].group.conns[c].phase == RedirectFail || trace[i].group.conns[c].phase == Closed ==>
              trace[j].group.conns[c].phase == RedirectFail || trace[j].group.conns[c].phase == Closed
    decreases j
  {
    if i < j {
      QuietBetweenAttempts(trace, events, i, j - 1, c);
      RunSettles(trace, events, j - 1, c);
    }
  }

  /** The attempt at step i was turned down at once, or its result, at step m, was a failure. */
  ghost predicate AttemptFailed(trace: seq<World>, events: seq<Event>, i: nat, m: nat, c: ConnId)
    requires Run(trace, events) && i <= m < |events|
  {
    && events[i].Attempt? && events[i].conn == c
    && if m == i then c in trace[i + 1].group.conns && trace[i + 1].group.conns[c].phase == RedirectFail
       else events[m].Result? && events[m].conn == c && !events[m].succeed
  }

  lemma {:induction false} FailureShows(trace: seq<World>, events: seq<Event>, i: nat, m: nat, c: ConnId)
    requires Run(trace, events) && i <= m < |events| && AttemptFailed(trace, events, i, m, c)
    ensures c in trace[m + 1].group.conns
    ensures trace[m + 1].group.conns[c].phase == RedirectFail || trace[m + 1].group.conns[c].phase == Closed
  {
    RunSteps(trace, events, m);
    if m != i && trace[m].group.conns[c].phase != Closed {
      EndpointsFound(trace[m], c, events[m].spareFrom, events[m].spareTo);
    }
  }

  /** A connection is not retried within three seconds of the start of a failed attempt. */
  lemma {:induction false} NoQuickRetry(trace: seq<World>, events: seq<Event>, i: nat, m: nat, j: nat, c: ConnId)
    requires Run(trace, events) && i <= m < j < |events|
    requires AttemptFailed(trace, events, i, m, c)
    requires events[j].Attempt? && events[j].conn == c && NoAttempt(events, i + 1, j, c)
    ensures events[j].now >= events[i].now + REDIRECT_FAIL_MIN_INTERVAL
  {
    RunSteps(trace, events, i);
    AttemptConn(trace[i], events[i]);
    QuietBetweenAttempts(trace, events, i + 1, j, c);
    FailureShows(trace, events, i, m, c);
    QuietBetweenAttempts(trace, events, m + 1, j, c);
    RunSteps(trace, events, j);
    assert PhaseOk(trace[j].group.conns[c]);
  }

  // ------------------------------------------------- keyspaces and failover times

  /** An object's labels: what no connection event touches. */
  ghost predicate SameLabels(a: Backend, b: Backend) {
    a.id == b.id && a.keyspace == b.keyspace && a.failoverSince == b.failoverSince
  }

  /** Every object keeps its labels; new objects are not in failover. */
  ghost predicate LabelsKept(g: Group, h: Group) {
    && (forall r :: r in g.objects ==> r in h.objects && SameLabels(g.objects[r], h.objects[r]))
    && (forall r :: r in h.objects && r !in g.objects ==> h.objects[r].failoverSince.None?)
  }

  lemma {:induction false} TransferKeepsLabels(g: Group, c: ConnId, to: Option<Ref>)
    requires OwnersKnown(g, c) && (to.Some? ==> to.value in g.objects)
    ensures LabelsKept(g, TransferScore(g, c, to))
  {
  }

  lemma {:induction false} ListMovesKeepLabels(g: Group, c: ConnId, r: Ref)
    requires OwnersKnown(g, c) && r in g.objects
    ensures LabelsKept(g, RemoveConn(g, c)) && LabelsKept(g, AddConn(RemoveConn(g, c), r, c))
  {
  }

  lemma {:induction false} CloseKeepsLabels(g: Group, c: ConnId)
    requires OwnersKnown(g, c)
    ensures LabelsKept(g, CloseStep(g, c))
  {
    TransferKeepsLabels(g, c, None);
  }

  lemma {:induction false} RecoveryKeepsLabels(g: Group, a: string, b: string, spareA: Ref, spareB: Ref)
    requires spareA !in g.objects && spareB !in g.objects && spareA != spareB
    ensures LabelsKept(g, EnsureBackend(EnsureBackend(g, a, spareA).0, b, spareB).0)
  {
  }

  lemma {:induction false} ResultKeepsLabels(w: World, c: ConnId, succeed: bool, spareFrom: Ref, spareTo: Ref)
    requires Inv(w) && Enabled(w, Result(c, succeed, spareFrom, spareTo)) && OwnersKnown(w.group, c)
    ensures LabelsKept(w.group, ResultStep(w, c, succeed, spareFrom, spareTo).group)
  {
    var g := w.group;
    if g.conns[c].phase == Closed {
      RecoveryKeepsLabels(g, w.inFlight[c].from, w.inFlight[c].to, spareFrom, spareTo);
    } else {
      EndpointsFound(w, c, spareFrom, spareTo);
      if succeed {
        ListMovesKeepLabels(g, c, g.conns[c].scorer.value);
      } else {
        TransferKeepsLabels(g, c, g.conns[c].physical);
      }
    }
  }

  lemma {:induction false} AttemptKeepsLabels(w: World, c: ConnId, to: Ref, now: Time, accepted: bool)
    requires OwnersKnown(w.group, c) && w.group.conns[c].physical.Some? && to in w.group.objects
    ensures LabelsKept(w.group, AttemptStep(w, c, to, now, accepted).group)
  {
    TransferKeepsLabels(w.group, c, Some(to));
  }

  lemma {:induction false} FinishKeepsLabels(w: World, ref: Ref, conn: ConnId, succeed: bool, spare: Ref)
    requires Inv(w) && Enabled(w, Finish(ref, conn, succeed, spare))
    ensures LabelsKept(w.group, FinishStep(w, ref, conn, succeed, spare).group)
  {
    BusyIsFound(w, ref, spare);
  }

  lemma {:induction false} StepKeepsLabels(w: World, e: Event)
    requires Inv(w) && Enabled(w, e) && !e.Relabel? && !e.Failover?
    ensures LabelsKept(w.group, Next(w, e).group)
  {
    hide Inv;
    match e {
      case Result(c, succeed, spareFrom, spareTo) =>
        InvOwners(w, c);
        ResultKeepsLabels(w, c, succeed, spareFrom, spareTo);
      case Finish(ref, conn, succeed, spare) => FinishKeepsLabels(w, ref, conn, succeed, spare);
      case Close(c) =>
        InvOwners(w, c);
        CloseKeepsLabels(w.group, c);
      case Attempt(c, to, now, accepted) =>
        InvOwners(w, c);
        AttemptKeepsLabels(w, c, to, now, accepted);
      case Register(_, _, _, _, _) =>
      case Observe(_, _) =>
      case RemoveIfIdle(_) =>
      case Reserve(_) =>
      case ForceClose(_, _, _) =>
      case Configure(_, _) =>
    }
  }

  /** Both owners of the connection, if any, are in this keyspace. */
  ghost predicate OwnersIn(g: Group, c: ConnId, keyspace: string) {
    && OwnersKnown(g, c)
    && (g.conns[c].physical.Some? ==> g.objects[g.conns[c].physical.value].keyspace == keyspace)
    && (g.conns[c].scorer.Some? ==> g.objects[g.conns[c].scorer.value].keyspace == keyspace)
  }

  /** An event other than an attempt gives a connection no owner that it did not have. */
  lemma {:induction false} StepKeepsOwners(w: World, e: Event, c: ConnId)
    requires Inv(w) && Enabled(w, e) && c in w.group.conns && !(e.Attempt? && e.conn == c)
    ensures c in Next(w, e).group.conns
    ensures var k, n := w.group.conns[c], Next(w, e).group.conns[c];
            && (n.physical.None? || n.physical == k.physical || n.physical == k.scorer)
            && (n.scorer.None? || n.scorer == k.physical || n.scorer == k.scorer)
  {
    if Subject(e) == Some(c) {
      hide Next;
      SubjectFollows(w, e);
    } else {
      hide Next;
      StepTouches(w, e, c);
    }
  }

  lemma {:induction false} AttemptKeepsKeyspace(w: World, e: Event, keyspace: string)
    requires Inv(w) && Enabled(w, e) && e.Attempt? && OwnersIn(w.group, e.conn, keyspace)
    ensures OwnersIn(Next(w, e).group, e.conn, keyspace)
  {
  }

  lemma {:induction false} StepKeepsKeyspace(w: World, e: Event, c: ConnId, keyspace: string)
    requires Inv(w) && Enabled(w, e) && !e.Relabel? && OwnersIn(w.group, c, keyspace)
    ensures OwnersIn(Next(w, e).group, c, keyspace)
  {
    StepKeepsInv(w, e);
    if e.Attempt? && e.conn == c {
      AttemptKeepsKeyspace(w, e, keyspace);
    } else {
      StepKeepsOwners(w, e, c);
      assert OwnersKnown(Next(w, e).group, c);
      if !e.Failover? {
        StepKeepsLabels(w, e);
      }
    }
  }

  lemma {:induction false} CreatedIn(w: World, e: Event)
    requires Inv(w) && Enabled(w, e) && e.Finish? && e.succeed
    ensures OwnersIn(Next(w, e).group, e.conn, w.group.objects[e.ref].keyspace)
  {
    BusyIsFound(w, e.ref, e.spare);
  }

  lemma {:induction false} RunCreatesIn(trace: seq<World>, events: seq<Event>, i: nat)
    requires Run(trace, events) && i < |events| && events[i].Finish? && events[i].succeed
    ensures events[i].ref in trace[i].group.objects
    ensures OwnersIn(trace[i + 1].group, events[i].conn, trace[i].group.objects[events[i].ref].keyspace)
  {
    RunSteps(trace, events, i);
    CreatedIn(trace[i], events[i]);
  }

  lemma {:induction false} RunKeepsKeyspace(trace: seq<World>, events: seq<Event>, i: nat, c: ConnId, keyspace: string)
    requires Run(trace, events) && i < |events| && !events[i].Relabel? && OwnersIn(trace[i].group, c, keyspace)
    ensures OwnersIn(trace[i + 1].group, c, keyspace)
  {
    RunSteps(trace, events, i);
    StepKeepsKeyspace(trace[i], events[i], c, keyspace);
  }

  /** While backends keep their keyspaces, both owners of a connection are always in the
      keyspace that it was created in. */
  lemma {:induction false} KeyspaceIsKept(trace: seq<World>, events: seq<Event>, i: nat, j: nat, c: ConnId)
    requires Run(trace, events) && i < j < |trace|
    requires events[i].Finish? && events[i].conn == c && events[i].succeed
    requires forall m :: i <= m < j ==> !events[m].Relabel?
    ensures events[i].ref in trace[i].group.objects
    ensures OwnersIn(trace[j].group, c, trace[i].group.objects[events[i].ref].keyspace)
    decreases j
  {
    RunCreatesIn(trace, events, i);
    if i < j - 1 {
      KeyspaceIsKept(trace, events, i, j - 1, c);
      RunKeepsKeyspace(trace, events, j - 1, c, trace[i].group.objects[events[i].ref].keyspace);
    }
  }

  /** The backend has been in failover ever since the failover update of step i. */
  ghost predicate InFailoverSince(trace: seq<World>, events: seq<Event>, i: nat, j: nat, r: Ref, t: Time)
    requires Run(trace, events) && j < |trace|
  {
    && i < j && events[i].Failover? && events[i].now == t && r in events[i].active
    && forall m :: i < m <= j ==> r in trace[m].group.objects && trace[m].group.objects[r].failoverSince == Some(t)
  }

  lemma {:induction false} StepKeepsFailover(w: World, e: Event, r: Ref)
    requires Inv(w) && Enabled(w, e) && r in Next(w, e).group.objects && Next(w, e).group.objects[r].failoverSince.Some?
    ensures r in w.group.objects
    ensures var since := Next(w, e).group.objects[r].failoverSince;
            since == w.group.objects[r].failoverSince || (e.Failover? && since == Some(e.now) && r in e.active)
  {
    if !e.Failover? && !e.Relabel? {
      StepKeepsLabels(w, e);
    }
  }

  lemma {:induction false} FailoverHasOrigin(trace: seq<World>, events: seq<Event>, j: nat, r: Ref, t: Time)
    requires Run(trace, events) && j < |trace|
    requires r in trace[j].group.objects && trace[j].group.objects[r].failoverSince == Some(t)
    ensures exists i :: InFailoverSince(trace, events, i, j, r, t)
    decreases j
  {
    if j > 0 {
      RunSteps(trace, events, j - 1);
      StepKeepsFailover(trace[j - 1], events[j - 1], r);
      if trace[j - 1].group.objects[r].failoverSince == Some(t) {
        FailoverHasOrigin(trace, events, j - 1, r, t);
        var i :| InFailoverSince(trace, events, i, j - 1, r, t);
        assert InFailoverSince(trace, events, i, j, r, t);
      } else {
        assert InFailoverSince(trace, events, j - 1, j, r, t);
      }
    }
  }

  /** A connection is force-closed only on a backend that has been in failover, without
      interruption, for at least the timeout in force. */
  lemma {:induction false} ForceCloseWaitsForTimeout(trace: seq<World>, events: seq<Event>, j: nat)
    requires Run(trace, events) && j < |events| && events[j].ForceClose?
    ensures exists i, r, t ::
              && trace[j].group.conns[events[j].conn].physical == Some(r)
              && InFailoverSince(trace, events, i, j, r, t)
              && (trace[j].group.failTimeout > 0 ==> events[j].now - t >= trace[j].group.failTimeout)
  {
    RunSteps(trace, events, j);
    var r := trace[j].group.conns[events[j].conn].physical.value;
    var t := trace[j].group.objects[r].failoverSince.value;
    FailoverHasOrigin(trace, events, j, r, t);
    var i :| InFailoverSince(trace, events, i, j, r, t);
  }
}
