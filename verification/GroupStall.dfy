/** What a backend that a late result put back does to a group under the simple policy. */
module GroupStall {
  import opened Common
  import opened GroupModel
  import opened GroupInvariant
  import opened GroupRuns
  import S = SimplePolicy

  /** The backend under this ID, as the policy sees it. */
  function Seen(g: Group, id: string): S.Ctx
    requires id in g.backends && g.backends[id] in g.objects
  {
    S.Ctx(id, Healthy(g.objects[g.backends[id]]), g.objects[g.backends[id]].score)
  }

  /** The list that a round hands to the policy: every backend of the group. */
  ghost predicate Handed(g: Group, s: seq<S.Ctx>)
    requires forall id :: id in g.backends ==> g.backends[id] in g.objects
  {
    && (forall id :: id in g.backends ==> Seen(g, id) in s)
    && (forall b :: b in s ==> b.id in g.backends && b == Seen(g, b.id))
  }

  /** The ID is in the group but the router does not know it. */
  predicate Unregistered(w: World, id: string) {
    id in w.group.backends && id !in w.registered
  }

  /** Without a new registration of its ID it stays, over any number of events. */
  lemma {:induction false} StaysUnregistered(trace: seq<World>, events: seq<Event>, i: nat, j: nat, id: string)
    requires Run(trace, events) && i <= j < |trace| && Unregistered(trace[i], id)
    requires forall m :: i <= m < j ==> !(events[m].Register? && events[m].id == id)
    ensures Unregistered(trace[j], id)
    decreases j
  {
    if i < j {
      StaysUnregistered(trace, events, i, j - 1, id);
      RevivedStays(trace, events, j - 1, id);
    }
  }

  /** It is unhealthy, and nothing is on it. */
  lemma {:induction false} UnregisteredIsIdle(trace: seq<World>, events: seq<Event>, i: nat, id: string)
    requires Run(trace, events) && i < |trace| && Unregistered(trace[i], id)
    ensures var g := trace[i].group;
            g.backends[id] in g.objects && !Healthy(g.objects[g.backends[id]]) && g.objects[g.backends[id]].score == 0
  {
    RunKeepsInv(trace, events, i);
    var w := trace[i];
    var r := w.group.backends[id];
    assert Anchored(w, r);
    assert ScoreOk(w.group, w.reserved, r);
  }

  lemma {:induction false} HandedScores(trace: seq<World>, events: seq<Event>, i: nat, s: seq<S.Ctx>)
    requires Run(trace, events) && i < |trace|
    ensures forall id :: id in trace[i].group.backends ==> trace[i].group.backends[id] in trace[i].group.objects
    ensures Handed(trace[i].group, s) ==> forall b :: b in s ==> b.score >= 0
  {
    RunKeepsInv(trace, events, i);
    forall id | id in trace[i].group.backends ensures trace[i].group.objects[trace[i].group.backends[id]].score >= 0 {
      ScoreAccounting(trace, events, i, trace[i].group.backends[id]);
    }
  }

  /** A revived placeholder stops the simple policy for the whole group until its ID is registered
      anew: however unbalanced the healthy backends are, no migration among them is chosen, and
      the policy rests as soon as no unhealthy backend has connections. */
  lemma {:induction false} RevivedStopsBalancing(trace: seq<World>, events: seq<Event>, i: nat, j: nat, id: string,
      s: seq<S.Ctx>)
    requires Run(trace, events) && i <= j < |trace| && Unregistered(trace[i], id)
    requires forall m :: i <= m < j ==> !(events[m].Register? && events[m].id == id)
    ensures forall x :: x in trace[j].group.backends ==> trace[j].group.backends[x] in trace[j].group.objects
    ensures Handed(trace[j].group, s) ==>
              && (forall p: nat, q: nat :: S.Ends(s, p, q) ==> S.Decide(s[p], s[q]) != Some(S.Conn))
              && (S.AtRest(s) <==> (forall b :: b in s ==> !b.healthy) || (forall b :: b in s && !b.healthy ==>
                  b.score == 0))
  {
    hide Run;
    StaysUnregistered(trace, events, i, j, id);
    UnregisteredIsIdle(trace, events, j, id);
    HandedScores(trace, events, j, s);
    if Handed(trace[j].group, s) {
      assert Seen(trace[j].group, id) in s && !Seen(trace[j].group, id).healthy;
      S.RestMeans(s);
      forall p: nat, q: nat | S.Ends(s, p, q) ensures S.Decide(s[p], s[q]) != Some(S.Conn) {
        S.EndsAreExtreme(s, p, q);
      }
    }
  }
}
