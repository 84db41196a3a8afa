/** One backend group of the router: its backends, its connections and every event that the
    group lock serialises. Backend and connection objects are records in tables; a Ref is
    the identity of one backend object, so an ID may name different objects over time. */
module GroupModel {
  import opened Common

  type Ref = nat
  type ConnId = nat
  type Time = int

  const REDIRECT_FAIL_MIN_INTERVAL: Time := 3_000_000_000

  datatype Backend = Backend(
    id: string, addr: string, podName: string, keyspace: string,
    observedHealthy: bool, failoverSince: Option<Time>, score: int, list: seq<ConnId>)

  datatype Phase = NotRedirected | RedirectNotify | RedirectEnd | RedirectFail | Closed

  /** `physical` is the backend whose list holds the connection, `scorer` the one whose score
      counts it. */
  datatype Conn = Conn(
    physical: Option<Ref>, scorer: Option<Ref>, phase: Phase, lastRedirect: Option<Time>, forceClosing: bool)

  datatype Group = Group(
    objects: map<Ref, Backend>, backends: map<string, Ref>, conns: map<ConnId, Conn>,
    failTargets: set<string>, failTimeout: Time)

  /** Routeable health: observed healthy and not in failover. */
  predicate Healthy(b: Backend) {
    b.observedHealthy && b.failoverSince.None?
  }

  // -------------------------------------------------------------- primitives

  function AddScore(g: Group, r: Ref, d: int): Group
    requires r in g.objects
  {
    g.(objects := g.objects[r := g.objects[r].(score := g.objects[r].score + d)])
  }

  /** Moves the connection's unit of score; to nobody when the connection closes. */
  function TransferScore(g: Group, c: ConnId, to: Option<Ref>): Group
    requires c in g.conns
    requires g.conns[c].scorer.Some? ==> g.conns[c].scorer.value in g.objects
    requires to.Some? ==> to.value in g.objects
  {
    var paid := if g.conns[c].scorer.Some? then AddScore(g, g.conns[c].scorer.value, -1) else g;
    var moved := paid.(conns := g.conns[c := g.conns[c].(scorer := to)]);
    if to.Some? then AddScore(moved, to.value, 1) else moved
  }

  function Without(s: seq<ConnId>, c: ConnId): seq<ConnId> {
    if s == [] then [] else if s[0] == c then Without(s[1..], c) else [s[0]] + Without(s[1..], c)
  }

  /** Takes the connection off the list that holds it. */
  function RemoveConn(g: Group, c: ConnId): Group
    requires c in g.conns
    requires g.conns[c].physical.Some? ==> g.conns[c].physical.value in g.objects
  {
    match g.conns[c].physical
    case None => g
    case Some(r) =>
      var b := g.objects[r];
      g.(objects := g.objects[r := b.(list := Without(b.list, c))],
         conns := g.conns[c := g.conns[c].(physical := None)])
  }

  function AddConn(g: Group, r: Ref, c: ConnId): Group
    requires c in g.conns && r in g.objects
  {
    var b := g.objects[r];
    g.(objects := g.objects[r := b.(list := b.list + [c])],
       conns := g.conns[c := g.conns[c].(physical := Some(r))])
  }

  function SetPhase(g: Group, c: ConnId, phase: Phase): Group
    requires c in g.conns
  {
    g.(conns := g.conns[c := g.conns[c].(phase := phase)])
  }

  /** Looks a backend up by ID, and recovers with an unhealthy placeholder if it is gone. */
  function EnsureBackend(g: Group, id: string, spare: Ref): (Group, Ref) {
    if id in g.backends then (g, g.backends[id])
    else (g.(objects := g.objects[spare := Backend(id, "", "", "", false, None, 0, [])],
             backends := g.backends[id := spare]), spare)
  }

  // ------------------------------------------------------------------- world

  /** Endpoints of an accepted redirect whose result has not arrived. */
  datatype Redirect = Redirect(from: string, to: string)

  /** The group with its surroundings: the router's table of backends, the reservations handed
      to selectors, and the redirects in flight. */
  datatype World = World(
    group: Group, registered: map<string, Ref>, reserved: multiset<Ref>, inFlight: map<ConnId, Redirect>)

  datatype Event =
    | Register(ref: Ref, id: string, addr: string, podName: string, keyspace: string)
    | Observe(ref: Ref, healthy: bool)
    | Relabel(ref: Ref, keyspace: string)
    | RemoveIfIdle(id: string)
    | Reserve(ref: Ref)
    | Finish(ref: Ref, conn: ConnId, succeed: bool, spare: Ref)
    | Attempt(conn: ConnId, to: Ref, now: Time, accepted: bool)
    | Result(conn: ConnId, succeed: bool, spareFrom: Ref, spareTo: Ref)
    | Close(conn: ConnId)
    | ForceClose(conn: ConnId, now: Time, accepted: bool)
    | Failover(active: set<Ref>, now: Time)
    | Configure(targets: set<string>, timeout: Time)

  const EMPTY := World(Group(map[], map[], map[], {}, 0), map[], multiset{}, map[])

  /** The connection may be redirected now: not closing, not redirecting, not failed lately. */
  predicate Redirectable(c: Conn, now: Time) {
    && !c.forceClosing
    && c.phase != RedirectNotify
    && !(c.phase == RedirectFail && c.lastRedirect.Some? && c.lastRedirect.value + REDIRECT_FAIL_MIN_INTERVAL > now)
  }

  /** Failover has lasted for the whole timeout. */
  predicate TimedOut(b: Backend, timeout: Time, now: Time) {
    && b.failoverSince.Some?
    && !(timeout > 0 && b.failoverSince.value + timeout > now)
  }

  /** Who may do what. One Finish settles one reservation; one Result settles one accepted
      redirect; object identities are never reused. Reservations and redirects go to registered
      backends: the policy chose a healthy one, but its health may have fallen since. */
  predicate Enabled(w: World, e: Event) {
    var g := w.group;
    match e
    case Register(ref, id, _, _, _) => ref !in g.objects && id !in w.registered
    case Observe(ref, _) => ref in w.registered.Values && ref in g.objects
    case Relabel(ref, _) => ref in w.registered.Values && ref in g.objects
    case RemoveIfIdle(id) => id in w.registered && w.registered[id] in g.objects
        && !g.objects[w.registered[id]].observedHealthy
    case Reserve(ref) => ref in w.registered.Values && ref in g.objects
    case Finish(ref, conn, _, spare) => w.reserved[ref] > 0 && ref in g.objects && conn !in g.conns
        && spare !in g.objects
    case Attempt(conn, to, now, _) =>
      && conn in g.conns && g.conns[conn].physical.Some? && Redirectable(g.conns[conn], now)
      && to in w.registered.Values && to in g.objects
    case Result(conn, _, spareFrom, spareTo) =>
      conn in w.inFlight && conn in g.conns && spareFrom !in g.objects && spareTo !in g.objects && spareFrom != spareTo
    case Close(conn) => conn in g.conns
    case ForceClose(conn, now, _) =>
      && conn in g.conns && g.conns[conn].physical.Some? && g.conns[conn].physical.value in g.objects
      && TimedOut(g.objects[g.conns[conn].physical.value], g.failTimeout, now)
      && g.conns[conn].phase != Closed && !g.conns[conn].forceClosing
    case Failover(_, _) => true
    case Configure(_, _) => true
  }

  // ------------------------------------------------------------------- steps

  function RegisterStep(w: World, e: Event): World
    requires e.Register?
  {
    w.(group := w.group.(objects :=
        w.group.objects[e.ref := Backend(e.id, e.addr, e.podName, e.keyspace, true, None, 0, [])],
                         backends := w.group.backends[e.id := e.ref]),
       registered := w.registered[e.id := e.ref])
  }

  function RemoveStep(w: World, id: string): World
    requires id in w.registered && w.registered[id] in w.group.objects
  {
    var b := w.group.objects[w.registered[id]];
    if |b.list| != 0 || b.score > 0 then w
    else w.(group := w.group.(backends := w.group.backends - {id}), registered := w.registered - {id})
  }

  function FinishStep(w: World, ref: Ref, conn: ConnId, succeed: bool, spare: Ref): World
    requires ref in w.group.objects
  {
    var (g, r) := EnsureBackend(w.group, w.group.objects[ref].id, spare);
    if r !in g.objects then w
    else if succeed then
      var started := g.(conns := g.conns[conn := Conn(None, Some(r), NotRedirected, None, false)]);
      w.(group := AddConn(started, r, conn), reserved := w.reserved - multiset{ref})
    else w.(group := AddScore(g, r, -1), reserved := w.reserved - multiset{ref})
  }

  /** The connection's owners are known objects. */
  predicate OwnersKnown(g: Group, c: ConnId) {
    && c in g.conns
    && (g.conns[c].physical.Some? ==> g.conns[c].physical.value in g.objects)
    && (g.conns[c].scorer.Some? ==> g.conns[c].scorer.value in g.objects)
  }

  function AttemptStep(w: World, c: ConnId, to: Ref, now: Time, accepted: bool): World
    requires OwnersKnown(w.group, c) && w.group.conns[c].physical.Some? && to in w.group.objects
  {
    var g := w.group;
    var from := g.objects[g.conns[c].physical.value];
    if from.keyspace == g.objects[to].keyspace && accepted then
      var moved := TransferScore(g, c, Some(to));
      w.(group := moved.(conns :=
          moved.conns[c := moved.conns[c].(phase := RedirectNotify, lastRedirect := Some(now))]),
         inFlight := w.inFlight[c := Redirect(from.id, g.objects[to].id)])
    else
      w.(group := g.(conns := g.conns[c := g.conns[c].(phase := RedirectFail, lastRedirect := Some(now))]))
  }

  function ResultStep(w: World, c: ConnId, succeed: bool, spareFrom: Ref, spareTo: Ref): World
    requires OwnersKnown(w.group, c) && c in w.inFlight
    requires forall id :: id in w.group.backends ==> w.group.backends[id] in w.group.objects
  {
    var (g1, from) := EnsureBackend(w.group, w.inFlight[c].from, spareFrom);
    var (g, to) := EnsureBackend(g1, w.inFlight[c].to, spareTo);
    var rest := w.inFlight - {c};
    if g.conns[c].phase == Closed then w.(group := g, inFlight := rest)
    else if succeed then w.(group := SetPhase(AddConn(RemoveConn(g, c), to, c), c, RedirectEnd), inFlight := rest)
    else w.(group := SetPhase(TransferScore(g, c, Some(from)), c, RedirectFail), inFlight := rest)
  }

  function CloseStep(g: Group, c: ConnId): Group
    requires OwnersKnown(g, c)
  {
    SetPhase(RemoveConn(TransferScore(g, c, None), c), c, Closed)
  }

  /** A backend keeps the time it entered failover for as long as it stays in failover. */
  function SetFailover(b: Backend, active: bool, now: Time): Backend {
    if !active then b.(failoverSince := None)
    else if b.failoverSince.Some? then b
    else b.(failoverSince := Some(now))
  }

  function FailoverStep(g: Group, active: set<Ref>, now: Time): Group {
    g.(objects := map r | r in g.objects ::
                    if r in g.backends.Values then SetFailover(g.objects[r], r in active, now) else g.objects[r])
  }
}
