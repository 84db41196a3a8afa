/** A run in which the result of a redirect arrives after its connection was closed and its
    target was removed, and so brings the removed backend back. */
module GroupWitness {
  import opened Common
  import opened GroupModel
  import opened GroupInvariant
  import opened GroupRuns

  function B(id: string, healthy: bool, score: int, list: seq<ConnId>): Backend {
    Backend(id, "", "", "k", healthy, None, score, list)
  }

  function W(a: Backend, b: Backend, tables: map<string, Ref>, conns: map<ConnId, Conn>, reserved: multiset<Ref>,
      f: map<ConnId, Redirect>): World {
    World(Group(map[0 := a, 1 := b], tables, conns, {}, 0), tables, reserved, f)
  }

  const A_ONLY: map<string, Ref> := map["a" := 0]
  const BOTH: map<string, Ref> := map["a" := 0, "b" := 1]
  const FLIGHT: map<ConnId, Redirect> := map[7 := Redirect("a", "b")]
  const CLOSED := map[7 := Conn(None, None, Closed, Some(0), false)]

  const EVENTS: seq<Event> := [
    Register(0, "a", "", "", "k"), Register(1, "b", "", "", "k"), Reserve(0), Finish(0, 7, true, 9),
    Attempt(7, 1, 0, true),
    Close(7), Observe(1, false), RemoveIfIdle("b"), Result(7, false, 10, 11)]

  const W1 := World(Group(map[0 := B("a", true, 0, [])], A_ONLY, map[], {}, 0), A_ONLY, multiset{}, map[])
  const W2 := W(B("a", true, 0, []), B("b", true, 0, []), BOTH, map[], multiset{}, map[])
  const W3 := W(B("a", true, 1, []), B("b", true, 0, []), BOTH, map[], multiset{0}, map[])
  const W4 := W(B("a", true, 1, [7]), B("b", true, 0, []), BOTH,
                map[7 := Conn(Some(0), Some(0), NotRedirected, None, false)], multiset{}, map[])
  const W5 := W(B("a", true, 0, [7]), B("b", true, 1, []), BOTH,
                map[7 := Conn(Some(0), Some(1), RedirectNotify, Some(0), false)], multiset{}, FLIGHT)
  const W6 := W(B("a", true, 0, []), B("b", true, 0, []), BOTH, CLOSED, multiset{}, FLIGHT)
  const W7 := W(B("a", true, 0, []), B("b", false, 0, []), BOTH, CLOSED, multiset{}, FLIGHT)
  const W8 := W(B("a", true, 0, []), B("b", false, 0, []), A_ONLY, CLOSED, multiset{}, FLIGHT)

  ghost predicate Goes(w: World, e: Event, v: World) {
    Enabled(w, e) && Step(w, e) == v
  }

  lemma {:induction false} Setup()
    ensures Goes(EMPTY, EVENTS[0], W1) && Goes(W1, EVENTS[1], W2)
  {
    assert Step(W1, EVENTS[1]).group.objects == W2.group.objects;
  }

  lemma {:induction false} InTables(a: Backend, b: Backend, conns: map<ConnId, Conn>, reserved: multiset<Ref>,
      f: map<ConnId, Redirect>)
    requires a.id == "a" && b.id == "b"
    ensures var w := W(a, b, BOTH, conns, reserved, f);
            TablesOk(w.group, w.registered) && 0 in w.group.backends.Values && 1 in w.group.backends.Values
  {
    var w := W(a, b, BOTH, conns, reserved, f);
    assert w.group.backends["a"] == 0 && w.group.backends["b"] == 1;
  }

  lemma {:induction false} Reserved()
    ensures Goes(W2, EVENTS[2], W3)
  {
    InTables(B("a", true, 0, []), B("b", true, 0, []), map[], multiset{}, map[]);
    assert Step(W2, EVENTS[2]).group.objects == W3.group.objects;
  }

  lemma {:induction false} Opened()
    ensures Goes(W3, EVENTS[3], W4)
  {
    InTables(B("a", true, 1, []), B("b", true, 0, []), map[], multiset{0}, map[]);
    assert [] + [7] == [7];
    assert multiset{0} - multiset{0} == multiset{};
    assert Step(W3, EVENTS[3]).group.objects == W4.group.objects;
    assert Step(W3, EVENTS[3]).group.conns == W4.group.conns;
  }

  lemma {:induction false} Redirected()
    ensures Goes(W4, EVENTS[4], W5)
  {
    InTables(B("a", true, 1, [7]), B("b", true, 0, []), W4.group.conns, multiset{}, map[]);
    assert OwnersOk(W4.group);
    assert Step(W4, EVENTS[4]).group.objects == W5.group.objects;
    assert Step(W4, EVENTS[4]).group.conns == W5.group.conns;
  }

  lemma {:induction false} ClosedMeanwhile()
    ensures Goes(W5, EVENTS[5], W6)
  {
    InTables(B("a", true, 0, [7]), B("b", true, 1, []), W5.group.conns, multiset{}, FLIGHT);
    assert OwnersOk(W5.group);
    assert Without([7], 7) == [];
    assert Step(W5, EVENTS[5]).group.objects == W6.group.objects;
    assert Step(W5, EVENTS[5]).group.conns == W6.group.conns;
  }

  lemma {:induction false} Removed()
    ensures Goes(W6, EVENTS[6], W7) && Goes(W7, EVENTS[7], W8)
  {
    InTables(B("a", true, 0, []), B("b", true, 0, []), CLOSED, multiset{}, FLIGHT);
    InTables(B("a", true, 0, []), B("b", false, 0, []), CLOSED, multiset{}, FLIGHT);
    assert OwnersOk(W6.group) && OwnersOk(W7.group);
    assert Step(W6, EVENTS[6]).group.objects == W7.group.objects;
    assert BOTH - {"b"} == A_ONLY;
    assert Step(W7, EVENTS[7]).group.backends == A_ONLY;
  }

  lemma {:induction false} Revived()
    ensures Enabled(W8, EVENTS[8]) && Goes(W8, EVENTS[8], Step(W8, EVENTS[8]))
    ensures "b" in Step(W8, EVENTS[8]).group.backends && "b" !in Step(W8, EVENTS[8]).registered
  {
    assert OwnersOk(W8.group) && TablesOk(W8.group, W8.registered);
  }

  lemma {:induction false} Chain(e: seq<Event>, w1: World, w2: World, w3: World, w4: World, w5: World, w6: World,
      w7: World, w8: World, w9: World)
    requires |e| == 9
    requires Goes(EMPTY, e[0], w1) && Goes(w1, e[1], w2) && Goes(w2, e[2], w3) && Goes(w3, e[3], w4)
        && Goes(w4, e[4], w5)
    requires Goes(w5, e[5], w6) && Goes(w6, e[6], w7) && Goes(w7, e[7], w8) && Goes(w8, e[8], w9)
    ensures Run([EMPTY, w1, w2, w3, w4, w5, w6, w7, w8, w9], e)
  {
    hide Enabled, Step;
    var trace := [EMPTY, w1, w2, w3, w4, w5, w6, w7, w8, w9];
    forall i | 0 <= i < 9
      ensures Enabled(trace[i], e[i]) && trace[i + 1] == Step(trace[i], e[i])
    {
      assert Goes(trace[i], e[i], trace[i + 1]);
    }
  }

  /** The lookup's recovery branch is reachable: here is a whole run that ends in it. */
  lemma {:induction false} RevivalHappens() returns (trace: seq<World>)
    ensures Run(trace, EVENTS) && |trace| == 10
    ensures "b" in trace[9].group.backends && "b" !in trace[9].registered && "b" !in trace[8].group.backends
  {
    hide Goes, Step, Enabled, Run;
    Setup();
    Reserved();
    Opened();
    Redirected();
    ClosedMeanwhile();
    Removed();
    Revived();
    Chain(EVENTS, W1, W2, W3, W4, W5, W6, W7, W8, Step(W8, EVENTS[8]));
    trace := [EMPTY, W1, W2, W3, W4, W5, W6, W7, W8, Step(W8, EVENTS[8])];
  }
}
