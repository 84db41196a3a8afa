/** The fail list never takes a group's last routeable backend, for any routing policy. */
module GroupFailover {
  import opened Common
  import opened GroupModel

  /** Which observed-healthy backends a policy may route to, given their healthy flags. */
  type Policy = map<Ref, bool> -> set<Ref>

  function ObservedHealthy(g: Group): set<Ref> {
    set r | r in g.backends.Values && r in g.objects && g.objects[r].observedHealthy
  }

  /** The observed-healthy backends, with those in `down` flagged unhealthy. */
  function Candidates(g: Group, down: set<Ref>): map<Ref, bool> {
    map r | r in ObservedHealthy(g) :: r !in down
  }

  /** The observed-healthy backends with the flags that failover in force gives them. */
  function InForce(g: Group): map<Ref, bool> {
    map r | r in ObservedHealthy(g) :: g.objects[r].failoverSince.None?
  }

  predicate InFailList(g: Group, b: Backend) {
    b.podName in g.failTargets || b.addr in g.failTargets
  }

  function Listed(g: Group): set<Ref> {
    set r | r in g.backends.Values && r in g.objects && InFailList(g, g.objects[r])
  }

  /** The list is ignored when it would leave nothing to route to. */
  predicate IgnoreList(g: Group, policy: Policy) {
    policy(Candidates(g, {})) != {} && policy(Candidates(g, Listed(g))) == {}
  }

  function ActiveFailover(g: Group, policy: Policy): set<Ref> {
    if IgnoreList(g, policy) then {} else Listed(g)
  }

  lemma {:induction false} UpdatePutsInForce(g: Group, active: set<Ref>, now: Time)
    ensures InForce(FailoverStep(g, active, now)) == Candidates(g, active)
  {
    var h := FailoverStep(g, active, now);
    assert ObservedHealthy(h) == ObservedHealthy(g);
    forall r | r in ObservedHealthy(g)
      ensures InForce(h)[r] == Candidates(g, active)[r]
    {
      assert r in g.backends.Values;
    }
  }

  /** After every update: if some backend is routeable with the list ignored, one is routeable
      with failover in force. */
  lemma {:induction false} FailoverKeepsAvailable(g: Group, policy: Policy, now: Time)
    requires policy(Candidates(g, {})) != {}
    ensures policy(InForce(FailoverStep(g, ActiveFailover(g, policy), now))) != {}
  {
    UpdatePutsInForce(g, ActiveFailover(g, policy), now);
  }

  /** A policy that judges each healthy backend by itself. */
  ghost predicate Pointwise(policy: Policy, suits: Ref -> bool) {
    forall m: map<Ref, bool> {:trigger policy(m)} :: policy(m) == set r | r in m && m[r] && suits(r)
  }

  /** For such a policy, a new connection finds a healthy and suitable backend after the
      update exactly if some observed-healthy backend is suitable at all. */
  lemma {:induction false} FailoverKeepsRoutes(g: Group, policy: Policy, suits: Ref -> bool, now: Time)
    requires Pointwise(policy, suits)
    ensures var h := FailoverStep(g, ActiveFailover(g, policy), now);
            (exists r :: r in ObservedHealthy(g) && suits(r)) <==>
            (exists r :: r in ObservedHealthy(h) && Healthy(h.objects[r]) && suits(r))
  {
    var active := ActiveFailover(g, policy);
    var h := FailoverStep(g, active, now);
    assert ObservedHealthy(h) == ObservedHealthy(g);
    UpdatePutsInForce(g, active, now);
    assert policy(Candidates(g, {})) == set r | r in Candidates(g, {}) && Candidates(g, {})[r] && suits(r);
    assert policy(InForce(h)) == set r | r in InForce(h) && InForce(h)[r] && suits(r);
    if r :| r in ObservedHealthy(g) && suits(r) {
      assert r in policy(Candidates(g, {}));
      FailoverKeepsAvailable(g, policy, now);
      var q :| q in policy(InForce(h));
      assert q in ObservedHealthy(h) && Healthy(h.objects[q]) && suits(q);
    }
  }

  // ------------------------------------------------------------ exact effect

  /** A backend of the group that is observed healthy and suits new connections. */
  predicate Usable(g: Group, suits: Ref -> bool, r: Ref) {
    r in g.backends.Values && r in g.objects && g.objects[r].observedHealthy && suits(r)
  }

  /** The list names every usable backend by its pod or its address, and there is one. */
  ghost predicate NamesAllUsable(g: Group, suits: Ref -> bool) {
    && (exists r :: Usable(g, suits, r))
    && (forall r :: Usable(g, suits, r) ==>
          g.objects[r].podName in g.failTargets || g.objects[r].addr in g.failTargets)
  }

  /** The list is ignored if and only if it names every usable backend, and there is one. */
  lemma {:induction false} IgnoredIff(g: Group, policy: Policy, suits: Ref -> bool)
    requires Pointwise(policy, suits)
    ensures IgnoreList(g, policy) <==> NamesAllUsable(g, suits)
  {
    var all, rest := Candidates(g, {}), Candidates(g, Listed(g));
    assert policy(all) == set r | r in all && all[r] && suits(r);
    assert policy(rest) == set r | r in rest && rest[r] && suits(r);
    if r :| r in policy(all) {
      assert Usable(g, suits, r);
    }
    if r :| Usable(g, suits, r) {
      assert r in policy(all);
    }
    if r :| r in policy(rest) {
      assert Usable(g, suits, r) && r !in Listed(g);
    }
    forall r | Usable(g, suits, r) && r !in policy(rest)
      ensures g.objects[r].podName in g.failTargets || g.objects[r].addr in g.failTargets
    {
      assert r in Listed(g);
    }
  }

  /** When failover began for a backend of the group after an update. */
  ghost function Since(g: Group, suits: Ref -> bool, r: Ref, now: Time): Option<Time>
    requires r in g.objects
  {
    var b := g.objects[r];
    if (b.podName !in g.failTargets && b.addr !in g.failTargets) || NamesAllUsable(g, suits) then None
    else if b.failoverSince.Some? then b.failoverSince else Some(now)
  }

  /** After an update a backend of the group is in failover if and only if the list names its pod or
      its address, unless it names every usable one; it keeps the time it entered. Nothing else
      changes. */
  lemma {:induction false} FailoverIsExact(g: Group, policy: Policy, suits: Ref -> bool, now: Time)
    requires Pointwise(policy, suits)
    ensures var h := FailoverStep(g, ActiveFailover(g, policy), now);
            && h == g.(objects := h.objects) && h.objects.Keys == g.objects.Keys
            && (forall r :: r in g.objects && r !in g.backends.Values ==> h.objects[r] == g.objects[r])
            && (forall r :: r in g.objects && r in g.backends.Values ==>
                  h.objects[r] == g.objects[r].(failoverSince := Since(g, suits, r, now)))
  {
    hide IgnoreList, NamesAllUsable, Pointwise;
    IgnoredIff(g, policy, suits);
    var h := FailoverStep(g, ActiveFailover(g, policy), now);
    forall r | r in g.objects && r in g.backends.Values
      ensures h.objects[r] == g.objects[r].(failoverSince := Since(g, suits, r, now))
    {
      assert r in Listed(g) <==> g.objects[r].podName in g.failTargets || g.objects[r].addr in g.failTargets;
    }
  }
}
