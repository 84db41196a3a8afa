/** When a refresh of an unchanged topology stages nothing, as the publisher promises: the desired
    lists are those that the builder sorted, and they are compared with the provider's by position. */
module SnapshotRefresh {
  import opened Common
  import opened Listings
  import opened SnapshotProtocol
  import opened SnapshotTopology

  /** The refresh has nothing to do: no configuration yet, or the topology is the desired one, or
      the one last turned down. */
  predicate UpToDate(p: Publisher, topology: Topology) {
    || p.lastConfig.None?
    || (p.desired.Some? && p.desired.value.body.Some? && p.desired.value.body.value.topology == topology)
    || p.rejected == Some(topology)
  }

  /** A successful build carries the topology that it was given, each list sorted. */
  predicate Builds(topology: Topology, built: Option<Built>) {
    built.Some? ==>
      && SortsTo(topology.backends, built.value.body.topology.backends)
      && SortsTo(topology.namespaces, built.value.body.topology.namespaces)
  }

  predicate InOrder(topology: Topology) {
    Ascending(topology.backends) && Ascending(topology.namespaces)
  }

  /** Lists that are in order already can be sorted in no other way. */
  predicate SortedOneWay(topology: Topology) {
    && (Ascending(topology.backends) ==> Unambiguous(topology.backends))
    && (Ascending(topology.namespaces) ==> Unambiguous(topology.namespaces))
  }

  /** The builder keeps the topology as it was given if and only if it was in order. */
  lemma {:induction false} KeptIffInOrder(topology: Topology, built: Built)
    requires Builds(topology, Some(built)) && SortedOneWay(topology)
    ensures built.body.topology == topology <==> InOrder(topology)
  {
    KeptIffSorted(topology.backends, built.body.topology.backends);
    KeptIffSorted(topology.namespaces, built.body.topology.namespaces);
  }

  /** A second refresh with the same topology changes nothing, whatever the builder answers, if and
      only if the first found nothing to do, or failed, or the lists were given in order. */
  lemma {:induction false} RefreshSettlesIff(
      p: Publisher, topology: Topology, built: Option<Built>, again: Option<Built>)
    requires SortedOneWay(topology) && Builds(topology, built) && Builds(topology, again)
    ensures Refresh(Refresh(p, topology, built), topology, again) == Refresh(p, topology, built) <==>
            UpToDate(p, topology) || built.None? || p.nextGeneration == U64_MAX || InOrder(topology)
  {
    if built.Some? {
      KeptIffInOrder(topology, built.value);
    }
  }

  /** A successful staging makes a topology up to date if and only if it is the one that was staged: one
      that was turned down before is tried again. */
  lemma {:induction false} StagingForgetsRefusals(p: Publisher, cfg: Config, built: Built, topology: Topology)
    requires p.nextGeneration < U64_MAX
    ensures UpToDate(Stage(p, cfg, Some(built)).0, topology) <==> built.body.topology == topology
  {
  }

  /** One refresh after the other with one topology. */
  function Refreshes(p: Publisher, topology: Topology, builds: seq<Built>): Publisher {
    if builds == [] then p
    else Refresh(Refreshes(p, topology, builds[..|builds| - 1]), topology, Some(builds[|builds| - 1]))
  }

  /** The generations that so many refreshes with one topology use up. */
  function Used(p: Publisher, topology: Topology, count: nat): nat {
    if UpToDate(p, topology) || count == 0 then 0 else if InOrder(topology) then 1 else count
  }

  /** Refreshes with an unchanged topology use up at most one generation if its lists are in order.
      Otherwise each of them uses one. */
  lemma {:induction false} RefreshesUse(p: Publisher, topology: Topology, builds: seq<Built>)
    requires SortedOneWay(topology) && p.nextGeneration + |builds| <= U64_MAX
    requires forall i :: 0 <= i < |builds| ==> Builds(topology, Some(builds[i]))
    ensures Refreshes(p, topology, builds).nextGeneration == p.nextGeneration + Used(p, topology, |builds|)
    ensures UpToDate(Refreshes(p, topology, builds), topology) <==>
            UpToDate(p, topology) || (InOrder(topology) && builds != [])
    ensures p.status.desired == p.nextGeneration ==>
              Refreshes(p, topology, builds).status.desired == Refreshes(p, topology, builds).nextGeneration
    decreases |builds|
  {
    if builds != [] {
      RefreshesUse(p, topology, builds[..|builds| - 1]);
      KeptIffInOrder(topology, builds[|builds| - 1]);
    }
  }

  // ----------------------------------------------------------------- witness

  /** Refreshes are steps of the protocol. */
  lemma {:induction false} RefreshesRun(states: seq<Sys>, events: seq<Event>, topology: Topology, builds: seq<Built>)
      returns (longer: seq<Sys>, further: seq<Event>)
    requires Run(states, events)
    ensures Run(longer, events + further) && |further| == |builds|
    ensures forall i :: 0 <= i < |further| ==> further[i] == RefreshTopology(topology, Some(builds[i]))
    ensures longer[|longer| - 1].pub == Refreshes(states[|states| - 1].pub, topology, builds)
    decreases |builds|
  {
    hide Refresh;
    if builds == [] {
      longer, further := states, [];
      assert events + [] == events;
    } else {
      var last := |builds| - 1;
      longer, further := RefreshesRun(states, events, topology, builds[..last]);
      var s, e := longer[|longer| - 1], RefreshTopology(topology, Some(builds[last]));
      RunSnoc(longer, events + further, e);
      assert events + further + [e] == events + (further + [e]);
      longer, further := longer + [Next(s, e)], further + [e];
    }
  }

  lemma {:induction false} RunSnoc(states: seq<Sys>, events: seq<Event>, e: Event)
    requires Run(states, events) && Enabled(states[|states| - 1], e)
    ensures Run(states + [Next(states[|states| - 1], e)], events + [e])
  {
    hide Next;
    var more, longer := states + [Next(states[|states| - 1], e)], events + [e];
    forall k | 0 <= k < |longer|
      ensures Leads(more[k], longer[k], more[k + 1])
    {
      if k < |events| {
        assert Leads(states[k], events[k], states[k + 1]);
      }
    }
  }

  const FIRST := Entry("a", "")
  const SECOND := Entry("b", "")

  /** Two backends in descending order, and what the builder makes of them. */
  const DESCENDING := Topology([SECOND, FIRST], [])
  const SORTED := Topology([FIRST, SECOND], [])

  lemma {:induction false} DescendingIsSorted(built: Built)
    requires built.body.topology == SORTED
    ensures Builds(DESCENDING, Some(built)) && SortedOneWay(DESCENDING) && !InOrder(DESCENDING)
  {
    assert TextLess("a", "b") && !TextLess("b", "a");
    assert Before(DESCENDING.backends[1], DESCENDING.backends[0]);
    assert !Ascending(DESCENDING.backends);
  }

  /** A run of the publisher in which one configuration and `count` refreshes with one and the same
      topology stage `count` + 1 generations. */
  lemma {:induction false} RestagingHappens(cfg: Config, required: seq<nat>, count: nat)
      returns (states: seq<Sys>, events: seq<Event>)
    requires count < U64_MAX
    ensures Run(states, events) && |events| == count + 1
    ensures forall k :: 1 <= k < |events| ==> events[k].RefreshTopology? && events[k].topology == DESCENDING
    ensures states[count + 1].pub.nextGeneration == states[count + 1].pub.status.desired == count + 1
  {
    var built := Built(required, Body(cfg, SORTED));
    var builds := seq(count, i => built);
    var p, update := Stage(INITIAL, cfg, Some(built)).0, Update(cfg, Some(built));
    assert Run([START], []);
    RunSnoc([START], [], update);
    assert [START] + [Next(START, update)] == [START, Next(START, update)] && [] + [update] == [update];
    var longer, further := RefreshesRun([START, Next(START, update)], [update], DESCENDING, builds);
    states, events := longer, [update] + further;
    DescendingIsSorted(built);
    assert SORTED.backends[0] != DESCENDING.backends[0];
    RefreshesUse(p, DESCENDING, builds);
  }
}
