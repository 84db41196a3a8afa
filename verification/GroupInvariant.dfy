/** What every event of a group keeps: scores and lists account for the connections, owners
    follow the phase, and no busy backend leaves the tables. */
module GroupInvariant {
  import opened Common
  import opened GroupModel

  function Scored(conns: map<ConnId, Conn>, r: Ref): set<ConnId> {
    set c | c in conns && conns[c].scorer == Some(r)
  }

  ghost predicate NoDuplicates(s: seq<ConnId>) {
    forall i, j :: 0 <= i < j < |s| ==> s[i] != s[j]
  }

  /** IDs name objects that carry them, and the router's table is part of the group's. */
  ghost predicate TablesOk(g: Group, registered: map<string, Ref>) {
    && (forall id :: id in g.backends ==> g.backends[id] in g.objects && g.objects[g.backends[id]].id == id)
    && (forall id :: id in registered ==> id in g.backends && g.backends[id] == registered[id])
  }

  ghost predicate OwnersOk(g: Group) {
    forall c {:trigger OwnersKnown(g, c)} :: c in g.conns ==> OwnersKnown(g, c)
  }

  /** The list holds, once each, exactly the connections the backend physically owns. */
  ghost predicate ListOk(g: Group, r: Ref)
    requires r in g.objects
  {
    && NoDuplicates(g.objects[r].list)
    && forall c :: c in g.objects[r].list <==> c in g.conns && g.conns[c].physical == Some(r)
  }

  /** The score counts the connections the backend is score owner of, and its reservations. */
  ghost predicate ScoreOk(g: Group, reserved: multiset<Ref>, r: Ref)
    requires r in g.objects
  {
    g.objects[r].score == |Scored(g.conns, r)| + reserved[r]
  }

  /** Owners follow the phase. */
  ghost predicate PhaseOk(c: Conn) {
    && (c.phase == Closed <==> c.physical.None?)
    && (c.phase == Closed <==> c.scorer.None?)
    && (c.phase != RedirectNotify ==> c.physical == c.scorer)
  }

  /** A redirect is in flight exactly while its connection is being notified, or was closed
      meanwhile; it names the two owners. */
  ghost predicate FlightOk(g: Group, inFlight: map<ConnId, Redirect>, c: ConnId) {
    && (c in inFlight ==> c in g.conns && (g.conns[c].phase == RedirectNotify || g.conns[c].phase == Closed))
    && (c in g.conns && g.conns[c].phase == RedirectNotify ==>
          && c in inFlight && OwnersKnown(g, c) && g.conns[c].physical.Some? && g.conns[c].scorer.Some?
          && inFlight[c] == Redirect(g.objects[g.conns[c].physical.value].id, g.objects[g.conns[c].scorer.value].id))
  }

  ghost predicate Accounts(g: Group, reserved: multiset<Ref>, inFlight: map<ConnId, Redirect>) {
    && OwnersOk(g)
    && (forall r :: r in reserved ==> r in g.objects)
    && ListsOk(g)
    && ScoresOk(g, reserved)
    && (forall c {:trigger PhaseOk(g.conns[c])} :: c in g.conns ==> PhaseOk(g.conns[c]))
    && (forall c {:trigger FlightOk(g, inFlight, c)} :: FlightOk(g, inFlight, c))
  }

  /** Something still depends on this backend object. */
  ghost predicate Busy(g: Group, reserved: multiset<Ref>, r: Ref)
    requires r in g.objects
  {
    g.objects[r].list != [] || g.objects[r].score != 0 || reserved[r] > 0
  }

  /** A busy object, or one that may be routed to, is in both tables under its own ID. */
  ghost predicate Anchored(w: World, r: Ref)
    requires r in w.group.objects
  {
    Busy(w.group, w.reserved, r) || (w.group.objects[r].observedHealthy && r in w.group.backends.Values) ==>
      var id := w.group.objects[r].id;
      id in w.registered && w.registered[id] == r
  }

  ghost predicate Anchors(w: World) {
    && TablesOk(w.group, w.registered)
    && forall r {:trigger Anchored(w, r)} :: r in w.group.objects ==> Anchored(w, r)
  }

  ghost predicate Inv(w: World) {
    Anchors(w) && Accounts(w.group, w.reserved, w.inFlight)
  }

  function ObserveStep(w: World, ref: Ref, b: Backend): World {
    w.(group := w.group.(objects := w.group.objects[ref := b]))
  }

  ghost function Next(w: World, e: Event): World
    requires TablesOk(w.group, w.registered) && OwnersOk(w.group) && Enabled(w, e)
  {
    match e
    case Register(_, _, _, _, _) => RegisterStep(w, e)
    case Observe(ref, healthy) => ObserveStep(w, ref, w.group.objects[ref].(observedHealthy := healthy))
    case Relabel(ref, keyspace) => ObserveStep(w, ref, w.group.objects[ref].(keyspace := keyspace))
    case RemoveIfIdle(id) => RemoveStep(w, id)
    case Reserve(ref) => w.(group := AddScore(w.group, ref, 1), reserved := w.reserved + multiset{ref})
    case Finish(ref, conn, succeed, spare) => FinishStep(w, ref, conn, succeed, spare)
    case Attempt(conn, to, now, accepted) => AttemptStep(w, conn, to, now, accepted)
    case Result(conn, succeed, spareFrom, spareTo) => ResultStep(w, conn, succeed, spareFrom, spareTo)
    case Close(conn) => w.(group := CloseStep(w.group, conn))
    case ForceClose(conn, _, accepted) =>
      if accepted then w.(group := w.group.(conns := w.group.conns[conn := w.group.conns[conn].(forceClosing := true)]))
      else w
    case Failover(active, now) => w.(group := FailoverStep(w.group, active, now))
    case Configure(targets, timeout) => w.(group := w.group.(failTargets := targets, failTimeout := timeout))
  }

  // ------------------------------------------------- steps that move no account

  /** No connection and no account changes; new objects are idle. */
  ghost predicate Extends(g: Group, h: Group) {
    && h.conns == g.conns
    && (forall r :: r in g.objects ==> r in h.objects)
    && (forall r :: r in h.objects ==>
          if r in g.objects then
            h.objects[r].id == g.objects[r].id && h.objects[r].list == g.objects[r].list
            && h.objects[r].score == g.objects[r].score
          else h.objects[r].list == [] && h.objects[r].score == 0)
  }

  lemma {:induction false} ExtendsKeepsAccounts(g: Group, h: Group, reserved: multiset<Ref>,
      inFlight: map<ConnId, Redirect>)
    requires Accounts(g, reserved, inFlight) && Extends(g, h)
    ensures Accounts(h, reserved, inFlight)
  {
    forall r | r in h.objects
      ensures ListOk(h, r) && ScoreOk(h, reserved, r)
    {
      if r in g.objects {
        assert ListOk(g, r) && ScoreOk(g, reserved, r);
      } else {
        assert Scored(h.conns, r) == {} by {
          assert forall c :: c in h.conns ==> OwnersKnown(g, c);
        }
        assert forall c :: c in h.conns ==> OwnersKnown(g, c);
      }
    }
    forall c
      ensures FlightOk(h, inFlight, c)
    {
      assert FlightOk(g, inFlight, c);
    }
    forall c | c in h.conns
      ensures OwnersKnown(h, c)
    {
      assert OwnersKnown(g, c);
    }
  }

  lemma {:induction false} RegisterKeepsAnchors(w: World, e: Event)
    requires Anchors(w) && e.Register? && Enabled(w, e) && e.ref !in w.reserved
    ensures Anchors(RegisterStep(w, e))
  {
    var v := RegisterStep(w, e);
    forall r | r in v.group.objects
      ensures Anchored(v, r)
    {
      assert r != e.ref ==> Anchored(w, r);
    }
  }

  lemma {:induction false} ObserveKeepsAnchors(w: World, ref: Ref, b: Backend)
    requires Anchors(w) && ref in w.group.objects && ref in w.registered.Values
    requires b.id == w.group.objects[ref].id && b.score == w.group.objects[ref].score
        && b.list == w.group.objects[ref].list
    ensures Anchors(ObserveStep(w, ref, b))
  {
    var v := ObserveStep(w, ref, b);
    var id :| id in w.registered && w.registered[id] == ref;
    assert w.group.objects[ref].id == id;
    forall r | r in v.group.objects
      ensures Anchored(v, r)
    {
      assert Anchored(w, r);
    }
  }

  /** Dropping an idle backend from both tables. */
  lemma {:induction false} RemoveKeepsAnchors(w: World, id: string)
    requires Anchors(w) && id in w.registered && !Busy(w.group, w.reserved, w.registered[id])
    ensures Anchors(w.(group := w.group.(backends := w.group.backends - {id}), registered := w.registered - {id}))
  {
    var v := w.(group := w.group.(backends := w.group.backends - {id}), registered := w.registered - {id});
    forall r | r in v.group.objects
      ensures Anchored(v, r)
    {
      assert Anchored(w, r);
      if r in v.group.backends.Values {
        var other :| other in v.group.backends && v.group.backends[other] == r;
        assert w.group.objects[w.group.backends[other]].id == other;
      }
    }
  }

  lemma {:induction false} FailoverKeepsAnchors(w: World, active: set<Ref>, now: Time)
    requires Anchors(w)
    ensures Anchors(w.(group := FailoverStep(w.group, active, now)))
  {
    var v := w.(group := FailoverStep(w.group, active, now));
    forall r | r in v.group.objects
      ensures Anchored(v, r)
    {
      assert Anchored(w, r);
    }
  }

  predicate Quiet(e: Event) {
    e.Register? || e.Observe? || e.Relabel? || e.RemoveIfIdle? || e.Failover? || e.Configure?
  }

  lemma {:induction false} FailoverExtends(g: Group, active: set<Ref>, now: Time)
    ensures Extends(g, FailoverStep(g, active, now))
  {
  }

  lemma {:induction false} QuietExtends(w: World, e: Event)
    requires TablesOk(w.group, w.registered) && OwnersOk(w.group) && Enabled(w, e) && Quiet(e)
    ensures Extends(w.group, Next(w, e).group)
    ensures Next(w, e).reserved == w.reserved && Next(w, e).inFlight == w.inFlight
  {
    hide FailoverStep;
    if e.Failover? {
      FailoverExtends(w.group, e.active, e.now);
    }
  }

  lemma {:induction false} QuietKeepsAnchors(w: World, e: Event)
    requires Anchors(w) && OwnersOk(w.group) && Enabled(w, e) && Quiet(e)
    requires forall r :: r in w.reserved ==> r in w.group.objects
    requires forall r :: r in w.group.objects ==> w.group.objects[r].score >= w.reserved[r]
    ensures Anchors(Next(w, e))
  {
    var v := Next(w, e);
    match e {
      case Register(_, _, _, _, _) => RegisterKeepsAnchors(w, e);
      case Observe(ref, _) => ObserveKeepsAnchors(w, ref, v.group.objects[ref]);
      case Relabel(ref, _) => ObserveKeepsAnchors(w, ref, v.group.objects[ref]);
      case RemoveIfIdle(id) =>
        if v != w {
          RemoveKeepsAnchors(w, id);
        }
      case Failover(active, now) => FailoverKeepsAnchors(w, active, now);
      case Configure(_, _) =>
        forall r | r in v.group.objects
          ensures Anchored(v, r)
        {
          assert Anchored(w, r);
        }
    }
  }

  /** The events that move no account keep the invariant. */
  lemma {:induction false} QuietKeepsInv(w: World, e: Event)
    requires Inv(w) && Enabled(w, e) && Quiet(e)
    ensures Inv(Next(w, e))
  {
    assert forall r :: r in w.group.objects ==> ScoreOk(w.group, w.reserved, r);
    QuietExtends(w, e);
    QuietKeepsAnchors(w, e);
    ExtendsKeepsAccounts(w.group, Next(w, e).group, w.reserved, w.inFlight);
  }

  // ---------------------------------------------------------------- list lemmas

  lemma {:induction false} WithoutMembers(s: seq<ConnId>, c: ConnId)
    ensures forall x :: x in Without(s, c) <==> x in s && x != c
    ensures NoDuplicates(s) ==> NoDuplicates(Without(s, c))
  {
    if s != [] {
      WithoutMembers(s[1..], c);
      assert s == [s[0]] + s[1..];
      if NoDuplicates(s) {
        assert NoDuplicates(s[1..]);
        assert s[0] !in s[1..];
      }
    }
  }

  ghost predicate ListsOk(g: Group) {
    forall r {:trigger ListOk(g, r)} :: r in g.objects ==> ListOk(g, r)
  }

  lemma {:induction false} RemoveConnLists(g: Group, c: ConnId)
    requires OwnersKnown(g, c) && ListsOk(g)
    ensures ListsOk(RemoveConn(g, c))
  {
    var h := RemoveConn(g, c);
    forall r | r in h.objects
      ensures ListOk(h, r)
    {
      assert ListOk(g, r);
      WithoutMembers(g.objects[r].list, c);
    }
  }

  lemma {:induction false} AddConnLists(g: Group, r: Ref, c: ConnId)
    requires ListsOk(g) && r in g.objects && c in g.conns && g.conns[c].physical.None?
    ensures ListsOk(AddConn(g, r, c))
  {
    var h := AddConn(g, r, c);
    forall q | q in h.objects
      ensures ListOk(h, q)
    {
      assert ListOk(g, q);
      if q == r {
        var l := g.objects[r].list;
        assert c !in l;
        assert forall x :: x in l + [c] <==> x in l || x == c;
      }
    }
  }

  /** Changing anything but the physical owner leaves the lists right. */
  lemma {:induction false} ListsIgnore(g: Group, h: Group)
    requires ListsOk(g) && h.objects.Keys == g.objects.Keys && h.conns.Keys == g.conns.Keys
    requires forall r :: r in g.objects ==> h.objects[r].list == g.objects[r].list
    requires forall c :: c in g.conns ==> h.conns[c].physical == g.conns[c].physical
    ensures ListsOk(h)
  {
    forall r | r in h.objects
      ensures ListOk(h, r)
    {
      assert ListOk(g, r);
    }
  }

  // --------------------------------------------------------------- score lemmas

  ghost predicate ScoresOk(g: Group, reserved: multiset<Ref>) {
    forall r {:trigger ScoreOk(g, reserved, r)} :: r in g.objects ==> ScoreOk(g, reserved, r)
  }

  lemma {:induction false} SwapSize(before: set<ConnId>, c: ConnId, add: bool)
    ensures |(before - {c}) + (if add then {c} else {})| ==
        |before| - (if c in before then 1 else 0) + (if add then 1 else 0)
  {
    var kept := before - {c};
    assert |kept| == |before| - (if c in before then 1 else 0);
    assert |kept + {c}| == |kept| + 1 && kept + {} == kept;
  }

  lemma {:induction false} ScoredMove(conns: map<ConnId, Conn>, c: ConnId, n: Conn, r: Ref)
    ensures |Scored(conns[c := n], r)|
         == |Scored(conns, r)| - (if c in conns && conns[c].scorer == Some(r) then 1 else 0)
            + (if n.scorer == Some(r) then 1 else 0)
  {
    ScoredAfter(conns, c, n, r);
    ScoredMember(conns, c, r);
    hide Scored;
    SwapSize(Scored(conns, r), c, n.scorer == Some(r));
  }

  lemma {:induction false} ScoredMember(conns: map<ConnId, Conn>, c: ConnId, r: Ref)
    ensures c in Scored(conns, r) <==> c in conns && conns[c].scorer == Some(r)
  {
  }

  lemma {:induction false} ScoredAfter(conns: map<ConnId, Conn>, c: ConnId, n: Conn, r: Ref)
    ensures Scored(conns[c := n], r) == (Scored(conns, r) - {c}) + if n.scorer == Some(r) then {c} else {}
  {
  }

  lemma {:induction false} TransferScores(g: Group, reserved: multiset<Ref>, c: ConnId, to: Option<Ref>)
    requires ScoresOk(g, reserved) && OwnersKnown(g, c) && (to.Some? ==> to.value in g.objects)
    ensures ScoresOk(TransferScore(g, c, to), reserved)
  {
    var h := TransferScore(g, c, to);
    forall r | r in h.objects
      ensures ScoreOk(h, reserved, r)
    {
      assert ScoreOk(g, reserved, r);
      ScoredMove(g.conns, c, g.conns[c].(scorer := to), r);
    }
  }

  /** Changing anything but the score owner leaves the scores right. */
  lemma {:induction false} ScoresIgnore(g: Group, h: Group, reserved: multiset<Ref>)
    requires ScoresOk(g, reserved) && h.objects.Keys == g.objects.Keys && h.conns.Keys == g.conns.Keys
    requires forall r :: r in g.objects ==> h.objects[r].score == g.objects[r].score
    requires forall c :: c in g.conns ==> h.conns[c].scorer == g.conns[c].scorer
    ensures ScoresOk(h, reserved)
  {
    forall r | r in h.objects
      ensures ScoreOk(h, reserved, r)
    {
      assert ScoreOk(g, reserved, r);
      assert Scored(h.conns, r) == Scored(g.conns, r);
    }
  }

  // ------------------------------------------------------- events of a connection

  /** The same objects under the same IDs, and every other connection as before. */
  ghost predicate OnlyConn(g: Group, h: Group, c: ConnId) {
    && h.backends == g.backends && h.objects.Keys == g.objects.Keys
    && (forall r :: r in g.objects ==>
        h.objects[r].id == g.objects[r].id && h.objects[r].observedHealthy == g.objects[r].observedHealthy)
    && c in h.conns && h.conns == g.conns[c := h.conns[c]]
  }

  lemma {:induction false} OnlyConnAccounts(g: Group, h: Group, reserved: multiset<Ref>, next: multiset<Ref>,
                                            f: map<ConnId, Redirect>, n: map<ConnId, Redirect>, c: ConnId)
    requires Accounts(g, reserved, f) && OnlyConn(g, h, c)
    requires OwnersKnown(h, c) && PhaseOk(h.conns[c]) && FlightOk(h, n, c)
    requires forall x :: x != c ==> (x in n <==> x in f) && (x in n ==> n[x] == f[x])
    requires forall r :: r in next ==> r in reserved
    requires ListsOk(h) && ScoresOk(h, next)
    ensures Accounts(h, next, n)
  {
    forall x | x in h.conns
      ensures OwnersKnown(h, x) && PhaseOk(h.conns[x])
    {
      if x != c {
        assert OwnersKnown(g, x);
      }
    }
    forall x
      ensures FlightOk(h, n, x)
    {
      if x != c {
        assert FlightOk(g, f, x);
      }
    }
  }

  /** Objects that become busy were anchored already. */
  lemma {:induction false} OnlyConnAnchors(w: World, v: World, c: ConnId)
    requires Anchors(w) && OnlyConn(w.group, v.group, c) && v.registered == w.registered
    requires forall r :: r in w.group.objects && Busy(v.group, v.reserved, r) ==>
               Busy(w.group, w.reserved, r) || r in w.registered.Values
    ensures Anchors(v)
  {
    forall r | r in v.group.objects
      ensures Anchored(v, r)
    {
      assert Anchored(w, r);
    }
  }

  lemma {:induction false} FlightsFrame(g: Group, h: Group, f: map<ConnId, Redirect>)
    requires forall c :: FlightOk(g, f, c)
    requires h.conns == g.conns && h.objects.Keys == g.objects.Keys
    requires forall r :: r in g.objects ==> h.objects[r].id == g.objects[r].id
    ensures forall c :: FlightOk(h, f, c)
  {
    forall c
      ensures FlightOk(h, f, c)
    {
      assert FlightOk(g, f, c);
    }
  }

  /** A reservation taken or given back moves the score with it. */
  lemma {:induction false} RescoreAccounts(g: Group, ref: Ref, d: int, reserved: multiset<Ref>, next: multiset<Ref>,
      f: map<ConnId, Redirect>)
    requires Accounts(g, reserved, f) && ref in g.objects
    requires next[ref] == reserved[ref] + d && forall r :: r != ref ==> next[r] == reserved[r]
    ensures Accounts(AddScore(g, ref, d), next, f)
  {
    var h := AddScore(g, ref, d);
    assert ListsOk(g) && ScoresOk(g, reserved);
    ListsIgnore(g, h);
    FlightsFrame(g, h, f);
    forall r | r in h.objects
      ensures ScoreOk(h, next, r)
    {
      assert ScoreOk(g, reserved, r);
    }
    forall c | c in h.conns
      ensures OwnersKnown(h, c)
    {
      assert OwnersKnown(g, c);
    }
  }

  lemma {:induction false} RescoreAnchors(w: World, ref: Ref, d: int, next: multiset<Ref>)
    requires Anchors(w) && ref in w.group.objects
    requires forall r :: r != ref ==> next[r] == w.reserved[r]
    requires Busy(w.group, w.reserved, ref) || ref in w.registered.Values
    ensures Anchors(w.(group := AddScore(w.group, ref, d), reserved := next))
  {
    var v := w.(group := AddScore(w.group, ref, d), reserved := next);
    forall r | r in v.group.objects
      ensures Anchored(v, r)
    {
      assert Anchored(w, r);
    }
  }

  lemma {:induction false} ReserveKeepsInv(w: World, ref: Ref)
    requires Inv(w) && Enabled(w, Reserve(ref))
    ensures Inv(w.(group := AddScore(w.group, ref, 1), reserved := w.reserved + multiset{ref}))
  {
    RescoreAccounts(w.group, ref, 1, w.reserved, w.reserved + multiset{ref}, w.inFlight);
    RescoreAnchors(w, ref, 1, w.reserved + multiset{ref});
  }

  /** The lookup of a busy backend finds that very object. */
  lemma {:induction false} BusyIsFound(w: World, r: Ref, spare: Ref)
    requires Anchors(w) && r in w.group.objects && Busy(w.group, w.reserved, r)
    ensures EnsureBackend(w.group, w.group.objects[r].id, spare) == (w.group, r)
  {
    assert Anchored(w, r);
  }

  lemma {:induction false} OpenedScores(g: Group, h: Group, ref: Ref, conn: ConnId, reserved: multiset<Ref>)
    requires ScoresOk(g, reserved) && reserved[ref] > 0 && conn !in g.conns && conn in h.conns
    requires h.conns == g.conns[conn := h.conns[conn]] && h.conns[conn].scorer == Some(ref)
    requires h.objects.Keys == g.objects.Keys
    requires forall r :: r in g.objects ==> h.objects[r].score == g.objects[r].score
    ensures ScoresOk(h, reserved - multiset{ref})
  {
    forall r | r in h.objects
      ensures ScoreOk(h, reserved - multiset{ref}, r)
    {
      assert ScoreOk(g, reserved, r);
      ScoredMove(g.conns, conn, h.conns[conn], r);
    }
  }

  lemma {:induction false} OpenedLists(g: Group, ref: Ref, conn: ConnId, c: Conn)
    requires ListsOk(g) && ref in g.objects && conn !in g.conns && c.physical.None?
    ensures ListsOk(AddConn(g.(conns := g.conns[conn := c]), ref, conn))
  {
    var h := g.(conns := g.conns[conn := c]);
    forall r | r in h.objects
      ensures ListOk(h, r)
    {
      assert ListOk(g, r);
    }
    AddConnLists(h, ref, conn);
  }

  function Opened(g: Group, ref: Ref, conn: ConnId): Group
    requires ref in g.objects
  {
    AddConn(g.(conns := g.conns[conn := Conn(None, Some(ref), NotRedirected, None, false)]), ref, conn)
  }

  lemma {:induction false} OpenedAccounts(g: Group, ref: Ref, conn: ConnId, reserved: multiset<Ref>,
      f: map<ConnId, Redirect>)
    requires Accounts(g, reserved, f) && reserved[ref] > 0 && ref in g.objects && conn !in g.conns
    ensures Accounts(Opened(g, ref, conn), reserved - multiset{ref}, f)
  {
    var h := Opened(g, ref, conn);
    assert ListsOk(g) && ScoresOk(g, reserved);
    OpenedLists(g, ref, conn, Conn(None, Some(ref), NotRedirected, None, false));
    OpenedScores(g, h, ref, conn, reserved);
    assert FlightOk(g, f, conn);
    assert h.conns[conn] == Conn(Some(ref), Some(ref), NotRedirected, None, false);
    OnlyConnAccounts(g, h, reserved, reserved - multiset{ref}, f, f, conn);
  }

  lemma {:induction false} OpenedAnchors(w: World, ref: Ref, conn: ConnId)
    requires Anchors(w) && w.reserved[ref] > 0 && ref in w.group.objects && conn !in w.group.conns
    ensures Anchors(w.(group := Opened(w.group, ref, conn), reserved := w.reserved - multiset{ref}))
  {
    var v := w.(group := Opened(w.group, ref, conn), reserved := w.reserved - multiset{ref});
    OnlyConnAnchors(w, v, conn);
  }

  lemma {:induction false} FinishKeepsInv(w: World, ref: Ref, conn: ConnId, succeed: bool, spare: Ref)
    requires Inv(w) && Enabled(w, Finish(ref, conn, succeed, spare))
    ensures Inv(FinishStep(w, ref, conn, succeed, spare))
  {
    BusyIsFound(w, ref, spare);
    if succeed {
      OpenedAccounts(w.group, ref, conn, w.reserved, w.inFlight);
      OpenedAnchors(w, ref, conn);
    } else {
      RescoreAccounts(w.group, ref, -1, w.reserved, w.reserved - multiset{ref}, w.inFlight);
      RescoreAnchors(w, ref, -1, w.reserved - multiset{ref});
    }
  }

  // ------------------------------------------------------------ redirect and close

  lemma {:induction false} OwnerIsBusy(w: World, c: ConnId)
    requires Inv(w) && c in w.group.conns && w.group.conns[c].phase != Closed
    ensures var k := w.group.conns[c];
            && OwnersKnown(w.group, c)
            && k.physical.Some? && Busy(w.group, w.reserved, k.physical.value)
            && k.scorer.Some? && Busy(w.group, w.reserved, k.scorer.value)
  {
    var k := w.group.conns[c];
    assert OwnersKnown(w.group, c) && PhaseOk(k);
    assert ListOk(w.group, k.physical.value) && ScoreOk(w.group, w.reserved, k.scorer.value);
    assert c in w.group.objects[k.physical.value].list;
    assert c in Scored(w.group.conns, k.scorer.value);
  }

  /** An attempt that the connection or the keyspace guard turned down. */
  lemma {:induction false} TurnedDownAccounts(g: Group, c: ConnId, n: Conn, reserved: multiset<Ref>,
      f: map<ConnId, Redirect>)
    requires Accounts(g, reserved, f) && c in g.conns && g.conns[c].phase != RedirectNotify
    requires n.physical == g.conns[c].physical && n.scorer == g.conns[c].scorer && n.phase != RedirectNotify
    requires n.phase == Closed <==> g.conns[c].phase == Closed
    ensures Accounts(g.(conns := g.conns[c := n]), reserved, f)
  {
    var h := g.(conns := g.conns[c := n]);
    assert ListsOk(g) && ScoresOk(g, reserved);
    ListsIgnore(g, h);
    ScoresIgnore(g, h, reserved);
    assert FlightOk(g, f, c) && OwnersKnown(g, c) && PhaseOk(g.conns[c]);
    OnlyConnAccounts(g, h, reserved, reserved, f, f, c);
  }

  /** An accepted attempt: the score moves ahead of the connection. */
  function Notified(g: Group, c: ConnId, to: Ref, now: Time): Group
    requires OwnersKnown(g, c) && to in g.objects
  {
    var moved := TransferScore(g, c, Some(to));
    moved.(conns := moved.conns[c := moved.conns[c].(phase := RedirectNotify, lastRedirect := Some(now))])
  }

  lemma {:induction false} NotifiedBooks(g: Group, c: ConnId, to: Ref, now: Time, reserved: multiset<Ref>)
    requires ListsOk(g) && ScoresOk(g, reserved) && OwnersKnown(g, c) && to in g.objects
    ensures ListsOk(Notified(g, c, to, now)) && ScoresOk(Notified(g, c, to, now), reserved)
  {
    var moved, h := TransferScore(g, c, Some(to)), Notified(g, c, to, now);
    TransferScores(g, reserved, c, Some(to));
    ScoresIgnore(moved, h, reserved);
    ListsIgnore(g, h);
  }

  lemma {:induction false} NotifiedAccounts(g: Group, c: ConnId, to: Ref, now: Time, reserved: multiset<Ref>,
      f: map<ConnId, Redirect>)
    requires Accounts(g, reserved, f) && OwnersKnown(g, c) && g.conns[c].physical.Some? && to in g.objects
    requires g.conns[c].phase != RedirectNotify
    ensures Accounts(Notified(g, c, to, now), reserved,
        f[c := Redirect(g.objects[g.conns[c].physical.value].id, g.objects[to].id)])
  {
    var n := f[c := Redirect(g.objects[g.conns[c].physical.value].id, g.objects[to].id)];
    NotifiedBooks(g, c, to, now, reserved);
    assert PhaseOk(g.conns[c]);
    OnlyConnAccounts(g, Notified(g, c, to, now), reserved, reserved, f, n, c);
  }

  lemma {:induction false} NotifiedAnchors(w: World, c: ConnId, to: Ref, now: Time, n: map<ConnId, Redirect>)
    requires Anchors(w) && OwnersKnown(w.group, c) && to in w.group.objects
    requires to in w.registered.Values
    requires w.group.conns[c].scorer.Some? && Busy(w.group, w.reserved, w.group.conns[c].scorer.value)
    ensures Anchors(w.(group := Notified(w.group, c, to, now), inFlight := n))
  {
    OnlyConnAnchors(w, w.(group := Notified(w.group, c, to, now), inFlight := n), c);
  }

  lemma {:induction false} AttemptKeepsInv(w: World, c: ConnId, to: Ref, now: Time, accepted: bool)
    requires Inv(w) && Enabled(w, Attempt(c, to, now, accepted))
    ensures Inv(AttemptStep(w, c, to, now, accepted))
  {
    var v := AttemptStep(w, c, to, now, accepted);
    assert PhaseOk(w.group.conns[c]);
    OwnerIsBusy(w, c);
    if accepted && w.group.objects[w.group.conns[c].physical.value].keyspace == w.group.objects[to].keyspace {
      NotifiedAccounts(w.group, c, to, now, w.reserved, w.inFlight);
      NotifiedAnchors(w, c, to, now, v.inFlight);
    } else {
      TurnedDownAccounts(w.group, c, v.group.conns[c], w.reserved, w.inFlight);
      OnlyConnAnchors(w, v, c);
    }
  }

  lemma {:induction false} CloseBooks(g: Group, c: ConnId, reserved: multiset<Ref>)
    requires ListsOk(g) && ScoresOk(g, reserved) && OwnersKnown(g, c)
    ensures ListsOk(CloseStep(g, c)) && ScoresOk(CloseStep(g, c), reserved)
  {
    var paid := TransferScore(g, c, None);
    TransferScores(g, reserved, c, None);
    ListsIgnore(g, paid);
    RemoveConnLists(paid, c);
    ListsIgnore(RemoveConn(paid, c), CloseStep(g, c));
    ScoresIgnore(paid, CloseStep(g, c), reserved);
  }

  /** A closed connection leaves every account. */
  lemma {:induction false} CloseAccounts(g: Group, c: ConnId, reserved: multiset<Ref>, f: map<ConnId, Redirect>)
    requires Accounts(g, reserved, f) && OwnersKnown(g, c)
    ensures Accounts(CloseStep(g, c), reserved, f)
  {
    hide ListsOk, ScoresOk, Without;
    CloseBooks(g, c, reserved);
    assert FlightOk(g, f, c);
    OnlyConnAccounts(g, CloseStep(g, c), reserved, reserved, f, f, c);
  }

  lemma {:induction false} CloseAnchors(w: World, c: ConnId)
    requires Inv(w) && OwnersKnown(w.group, c)
    ensures Anchors(w.(group := CloseStep(w.group, c)))
  {
    var v := w.(group := CloseStep(w.group, c));
    assert PhaseOk(w.group.conns[c]);
    if w.group.conns[c].phase != Closed {
      OwnerIsBusy(w, c);
    }
    OnlyConnAnchors(w, v, c);
  }

  lemma {:induction false} CloseKeepsInv(w: World, c: ConnId)
    requires Inv(w) && OwnersKnown(w.group, c)
    ensures Inv(w.(group := CloseStep(w.group, c)))
  {
    CloseAccounts(w.group, c, w.reserved, w.inFlight);
    CloseAnchors(w, c);
  }

  lemma {:induction false} ForceCloseKeepsInv(w: World, c: ConnId)
    requires Inv(w) && c in w.group.conns
    ensures Inv(w.(group := w.group.(conns := w.group.conns[c := w.group.conns[c].(forceClosing := true)])))
  {
    var g := w.group;
    var h := g.(conns := g.conns[c := g.conns[c].(forceClosing := true)]);
    ListsIgnore(g, h);
    ScoresIgnore(g, h, w.reserved);
    assert FlightOk(g, w.inFlight, c) && OwnersKnown(g, c) && PhaseOk(g.conns[c]);
    OnlyConnAccounts(g, h, w.reserved, w.reserved, w.inFlight, w.inFlight, c);
    OnlyConnAnchors(w, w.(group := h), c);
  }

  // ------------------------------------------------------------- redirect results

  /** The connection joins the list of its score owner. */
  function Arrived(g: Group, c: ConnId): Group
    requires OwnersKnown(g, c) && g.conns[c].scorer.Some?
  {
    SetPhase(AddConn(RemoveConn(g, c), g.conns[c].scorer.value, c), c, RedirectEnd)
  }

  /** The score returns to the list owner. */
  function Returned(g: Group, c: ConnId): Group
    requires OwnersKnown(g, c) && g.conns[c].physical.Some?
  {
    SetPhase(TransferScore(g, c, g.conns[c].physical), c, RedirectFail)
  }

  lemma {:induction false} ArrivedBooks(g: Group, c: ConnId, reserved: multiset<Ref>)
    requires ListsOk(g) && ScoresOk(g, reserved) && OwnersKnown(g, c) && g.conns[c].scorer.Some?
    ensures ListsOk(Arrived(g, c)) && ScoresOk(Arrived(g, c), reserved)
  {
    var off := RemoveConn(g, c);
    var on := AddConn(off, g.conns[c].scorer.value, c);
    RemoveConnLists(g, c);
    AddConnLists(off, g.conns[c].scorer.value, c);
    ListsIgnore(on, Arrived(g, c));
    ScoresIgnore(g, Arrived(g, c), reserved);
  }

  lemma {:induction false} ReturnedBooks(g: Group, c: ConnId, reserved: multiset<Ref>)
    requires ListsOk(g) && ScoresOk(g, reserved) && OwnersKnown(g, c) && g.conns[c].physical.Some?
    ensures ListsOk(Returned(g, c)) && ScoresOk(Returned(g, c), reserved)
  {
    TransferScores(g, reserved, c, g.conns[c].physical);
    ScoresIgnore(TransferScore(g, c, g.conns[c].physical), Returned(g, c), reserved);
    ListsIgnore(g, Returned(g, c));
  }

  lemma {:induction false} SettledAccounts(g: Group, c: ConnId, succeed: bool, reserved: multiset<Ref>,
      f: map<ConnId, Redirect>)
    requires Accounts(g, reserved, f) && OwnersKnown(g, c) && g.conns[c].phase == RedirectNotify
    requires g.conns[c].physical.Some? && g.conns[c].scorer.Some?
    ensures Accounts(if succeed then Arrived(g, c) else Returned(g, c), reserved, f - {c})
  {
    var h := if succeed then Arrived(g, c) else Returned(g, c);
    if succeed {
      ArrivedBooks(g, c, reserved);
    } else {
      ReturnedBooks(g, c, reserved);
    }
    OnlyConnAccounts(g, h, reserved, reserved, f, f - {c}, c);
  }

  lemma {:induction false} SettledAnchors(w: World, c: ConnId, succeed: bool, n: map<ConnId, Redirect>)
    requires Anchors(w) && OwnersKnown(w.group, c)
    requires w.group.conns[c].physical.Some? && Busy(w.group, w.reserved, w.group.conns[c].physical.value)
    requires w.group.conns[c].scorer.Some? && Busy(w.group, w.reserved, w.group.conns[c].scorer.value)
    ensures Anchors(w.(group := if succeed then Arrived(w.group, c) else Returned(w.group, c), inFlight := n))
  {
    OnlyConnAnchors(w, w.(group := if succeed then Arrived(w.group, c) else Returned(w.group, c), inFlight := n), c);
  }

  /** While its connection is open, a redirect's endpoints are found as the two owners. */
  lemma {:induction false} EndpointsFound(w: World, c: ConnId, spareFrom: Ref, spareTo: Ref)
    requires Inv(w) && c in w.inFlight && c in w.group.conns && w.group.conns[c].phase != Closed
    ensures var k := w.group.conns[c];
            && w.group.conns[c].phase == RedirectNotify && OwnersKnown(w.group, c) && k.physical.Some? && k.scorer.Some?
            && EnsureBackend(w.group, w.inFlight[c].from, spareFrom) == (w.group, k.physical.value)
            && EnsureBackend(w.group, w.inFlight[c].to, spareTo) == (w.group, k.scorer.value)
  {
    assert FlightOk(w.group, w.inFlight, c);
    OwnerIsBusy(w, c);
    BusyIsFound(w, w.group.conns[c].physical.value, spareFrom);
    BusyIsFound(w, w.group.conns[c].scorer.value, spareTo);
  }

  lemma {:induction false} OpenResultKeepsInv(w: World, c: ConnId, succeed: bool, spareFrom: Ref, spareTo: Ref)
    requires Inv(w) && Enabled(w, Result(c, succeed, spareFrom, spareTo)) && w.group.conns[c].phase != Closed
    requires OwnersKnown(w.group, c)
    ensures Inv(ResultStep(w, c, succeed, spareFrom, spareTo))
  {
    EndpointsFound(w, c, spareFrom, spareTo);
    OwnerIsBusy(w, c);
    SettledAccounts(w.group, c, succeed, w.reserved, w.inFlight);
    SettledAnchors(w, c, succeed, w.inFlight - {c});
  }

  // ------------------------------------------------------- results after the close

  lemma {:induction false} RecoverAnchors(w: World, id: string, spare: Ref)
    requires Anchors(w) && spare !in w.group.objects && spare !in w.reserved
    ensures Anchors(w.(group := EnsureBackend(w.group, id, spare).0))
  {
    var v := w.(group := EnsureBackend(w.group, id, spare).0);
    forall r | r in v.group.objects
      ensures Anchored(v, r)
    {
      assert r in w.group.objects ==> Anchored(w, r);
    }
  }

  /** Recovery by ID adds an idle, unregistered, unhealthy object and nothing else. */
  lemma {:induction false} RecoverKeepsInv(w: World, id: string, spare: Ref)
    requires Inv(w) && spare !in w.group.objects
    ensures Inv(w.(group := EnsureBackend(w.group, id, spare).0))
    ensures Extends(w.group, EnsureBackend(w.group, id, spare).0)
  {
    RecoverAnchors(w, id, spare);
    ExtendsKeepsAccounts(w.group, EnsureBackend(w.group, id, spare).0, w.reserved, w.inFlight);
  }

  lemma {:induction false} ForgetFlight(w: World, c: ConnId)
    requires Inv(w) && c in w.group.conns && w.group.conns[c].phase == Closed
    ensures Inv(w.(inFlight := w.inFlight - {c}))
  {
    var v := w.(inFlight := w.inFlight - {c});
    forall x
      ensures FlightOk(v.group, v.inFlight, x)
    {
      assert FlightOk(w.group, w.inFlight, x);
    }
    forall r | r in v.group.objects
      ensures Anchored(v, r)
    {
      assert Anchored(w, r);
    }
  }

  lemma {:induction false} LateResultKeepsInv(w: World, c: ConnId, succeed: bool, spareFrom: Ref, spareTo: Ref)
    requires Inv(w) && Enabled(w, Result(c, succeed, spareFrom, spareTo)) && w.group.conns[c].phase == Closed
    requires OwnersKnown(w.group, c)
    ensures Inv(ResultStep(w, c, succeed, spareFrom, spareTo))
    ensures Extends(w.group, ResultStep(w, c, succeed, spareFrom, spareTo).group)
  {
    RecoverKeepsInv(w, w.inFlight[c].from, spareFrom);
    var v := w.(group := EnsureBackend(w.group, w.inFlight[c].from, spareFrom).0);
    RecoverKeepsInv(v, w.inFlight[c].to, spareTo);
    ForgetFlight(v.(group := EnsureBackend(v.group, w.inFlight[c].to, spareTo).0), c);
  }

  /** Every event keeps the invariant. */
  lemma {:induction false} StepKeepsInv(w: World, e: Event)
    requires Inv(w) && Enabled(w, e)
    ensures Inv(Next(w, e))
  {
    match e {
      case Reserve(ref) => ReserveKeepsInv(w, ref);
      case Finish(ref, conn, succeed, spare) => FinishKeepsInv(w, ref, conn, succeed, spare);
      case Attempt(conn, to, now, accepted) => AttemptKeepsInv(w, conn, to, now, accepted);
      case Result(conn, succeed, spareFrom, spareTo) =>
        assert OwnersKnown(w.group, conn);
        if w.group.conns[conn].phase == Closed {
          LateResultKeepsInv(w, conn, succeed, spareFrom, spareTo);
        } else {
          OpenResultKeepsInv(w, conn, succeed, spareFrom, spareTo);
        }
      case Close(conn) =>
        assert OwnersKnown(w.group, conn);
        CloseKeepsInv(w, conn);
      case ForceClose(conn, _, _) => ForceCloseKeepsInv(w, conn);
      case _ => QuietKeepsInv(w, e);
    }
  }
}
