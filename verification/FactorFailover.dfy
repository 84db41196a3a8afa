/** The fail list under the factor-based policy. */
module FactorFailover {
  import opened Common
  import opened GroupModel
  import opened GroupFailover
  import F = FactorScores
  import B = FactorBalance
  import L = FactorList

  /** The backends that the configured factors let through, with the given healthy flags. */
  ghost function FactorPolicy(c: L.Config, ctx: Ref -> F.Backend): Policy {
    (m: map<Ref, bool>) => set r | r in m && B.Routeable(L.SetFactors(c), ctx(r).(healthy := m[r]))
  }

  /** The backend carries the proxy's label value, or the configuration asks for none. */
  predicate Labelled(c: L.Config, b: F.Backend) {
    c.labelName == "" || c.selfLabel == "" || L.SameLabel(b, c.labelName, c.selfLabel)
  }

  lemma {:induction false} FactorPolicyIsPointwise(c: L.Config, ctx: Ref -> F.Backend)
    requires L.ValidConfig(c)
    ensures Pointwise(FactorPolicy(c, ctx), (r: Ref) => Labelled(c, ctx(r)))
  {
    var suits := (r: Ref) => Labelled(c, ctx(r));
    forall m: map<Ref, bool> ensures FactorPolicy(c, ctx)(m) == set r | r in m && m[r] && suits(r) {
      forall r | r in m ensures B.Routeable(L.SetFactors(c), ctx(r).(healthy := m[r])) <==> m[r] && suits(r) {
        L.RouteableMeansSuits(c, ctx(r).(healthy := m[r]));
      }
    }
  }

  /** For every configuration of the factors: after every update of the fail list, a new connection
      finds a healthy backend with the label if and only if some observed-healthy backend carries
      it. */
  lemma {:induction false} FactorFailoverKeepsRoutes(g: Group, c: L.Config, ctx: Ref -> F.Backend, now: Time)
    requires L.ValidConfig(c)
    ensures var h := FailoverStep(g, ActiveFailover(g, FactorPolicy(c, ctx)), now);
            (exists r :: r in ObservedHealthy(g) && Labelled(c, ctx(r))) <==>
            (exists r :: r in ObservedHealthy(h) && Healthy(h.objects[r]) && Labelled(c, ctx(r)))
  {
    var suits := (r: Ref) => Labelled(c, ctx(r));
    FactorPolicyIsPointwise(c, ctx);
    FailoverKeepsRoutes(g, FactorPolicy(c, ctx), suits, now);
    var h := FailoverStep(g, ActiveFailover(g, FactorPolicy(c, ctx)), now);
    assert forall r :: suits(r) <==> Labelled(c, ctx(r));
  }

  /** For every configuration of the factors: what the update puts into failover is exactly what the
      list names, unless it names every observed-healthy backend with the label. */
  lemma {:induction false} FactorFailoverIsExact(g: Group, c: L.Config, ctx: Ref -> F.Backend, now: Time, r: Ref)
    requires L.ValidConfig(c) && r in g.objects && r in g.backends.Values
    ensures var h := FailoverStep(g, ActiveFailover(g, FactorPolicy(c, ctx)), now);
            h.objects[r].failoverSince.Some? <==>
            && (g.objects[r].podName in g.failTargets || g.objects[r].addr in g.failTargets)
            && ((forall q :: q in ObservedHealthy(g) ==> !Labelled(c, ctx(q)))
                || exists q :: && q in ObservedHealthy(g) && Labelled(c, ctx(q))
                               && g.objects[q].podName !in g.failTargets && g.objects[q].addr !in g.failTargets)
  {
    hide L.SetFactors, FactorPolicy, ActiveFailover;
    var suits := (x: Ref) => Labelled(c, ctx(x));
    FactorPolicyIsPointwise(c, ctx);
    FailoverIsExact(g, FactorPolicy(c, ctx), suits, now);
    assert forall x :: Usable(g, suits, x) <==> x in ObservedHealthy(g) && Labelled(c, ctx(x));
  }
}
