/** The in-memory consumer of plain delta batches, kept for peers without a producer id. */
module MeteringLegacy {
  import opened Common
  import opened MeteringStaging

  datatype Delta = Delta(key: Key, add: Totals)

  /** What a list of deltas adds to one meter of one key. */
  function DeltaSum(deltas: seq<Delta>, k: Key, c: Meter): nat {
    if deltas == [] then 0
    else
      var last := deltas[|deltas| - 1];
      DeltaSum(deltas[..|deltas| - 1], k, c) + if last.key == k then Reading(last.add, c) else 0
  }

  lemma {:induction false} DeltaSumStep(deltas: seq<Delta>, n: nat, k: Key, c: Meter)
    requires n < |deltas|
    ensures DeltaSum(deltas[..n + 1], k, c)
         == DeltaSum(deltas[..n], k, c) + if deltas[n].key == k then Reading(deltas[n].add, c) else 0
  {
    assert deltas[..n + 1][..n] == deltas[..n];
  }

  lemma {:induction false} DeltaSumGrows(deltas: seq<Delta>, n: nat, k: Key, c: Meter)
    requires n <= |deltas|
    ensures DeltaSum(deltas[..n], k, c) <= DeltaSum(deltas, k, c)
    decreases |deltas| - n
  {
    if n < |deltas| {
      DeltaSumStep(deltas, n, k, c);
      DeltaSumGrows(deltas, n + 1, k, c);
    } else {
      assert deltas[..n] == deltas;
    }
  }

  /** No meter of any key would overflow. */
  ghost predicate AllFit(totals: map<Key, Totals>, deltas: seq<Delta>) {
    forall k, c :: Held(totals, k, c) + DeltaSum(deltas, k, c) <= U64_MAX
  }

  function Current(staged: map<Key, Totals>, totals: map<Key, Totals>, k: Key): Totals {
    if k in staged then staged[k] else Lookup(totals, k)
  }

  /** The running sum that the n-th delta brings its key to. */
  ghost predicate RunningSum(totals: map<Key, Totals>, deltas: seq<Delta>, n: nat, sum: Delta) {
    && n < |deltas| && sum.key == deltas[n].key
    && forall c :: Reading(sum.add, c) == Held(totals, sum.key, c) + DeltaSum(deltas[..n + 1], sum.key, c)
  }

  /** The first pass: every running sum, or nothing once a sum would wrap. */
  method StageDeltas(totals: map<Key, Totals>, deltas: seq<Delta>) returns (adds: seq<Delta>, fits: bool)
    ensures fits <==> AllFit(totals, deltas)
    ensures fits ==> |adds| == |deltas| && forall i :: 0 <= i < |adds| ==> RunningSum(totals, deltas, i, adds[i])
  {
    adds := [];
    var staged: map<Key, Totals> := map[];
    for n := 0 to |deltas|
      invariant forall k, c ::
          Reading(Current(staged, totals, k), c) == Held(totals, k, c) + DeltaSum(deltas[..n], k, c)
      invariant |adds| == n && forall i :: 0 <= i < n ==> RunningSum(totals, deltas, i, adds[i])
    {
      var d := deltas[n];
      var current := Current(staged, totals, d.key);
      var response := WrapAdd(current.response, d.add.response);
      var cross := WrapAdd(current.cross, d.add.cross);
      if response < current.response || cross < current.cross {
        ghost var c := if response < current.response then Response else Cross;
        DeltaSumStep(deltas, n, d.key, c);
        DeltaSumGrows(deltas, n + 1, d.key, c);
        assert Reading(current, c) == Held(totals, d.key, c) + DeltaSum(deltas[..n], d.key, c);
        assert Held(totals, d.key, c) + DeltaSum(deltas, d.key, c) > U64_MAX;
        return [], false;
      }
      ghost var before := staged;
      staged := staged[d.key := Totals(response, cross)];
      adds := adds + [Delta(d.key, Totals(response, cross))];
      forall k, c
        ensures Reading(Current(staged, totals, k), c) == Held(totals, k, c) + DeltaSum(deltas[..n + 1], k, c)
      {
        DeltaSumStep(deltas, n, k, c);
        assert Reading(Current(before, totals, k), c) == Held(totals, k, c) + DeltaSum(deltas[..n], k, c);
      }
      assert RunningSum(totals, deltas, n, adds[n]) by {
        assert Current(staged, totals, d.key) == adds[n].add;
      }
    }
    assert deltas[..|deltas|] == deltas;
    forall k, c
      ensures Held(totals, k, c) + DeltaSum(deltas, k, c) <= U64_MAX
    {
      assert Reading(Current(staged, totals, k), c) == Held(totals, k, c) + DeltaSum(deltas, k, c);
    }
    fits := true;
  }

  class DeltaConsumer {
    var lastApplied: U64
    var totals: map<Key, Totals>

    constructor ()
      ensures lastApplied == 0 && totals == map[]
    {
      lastApplied, totals := 0, map[];
    }

    /** Applies exactly the next sequence, and only if no sum wraps; then every meter grows by
        exactly the batch's deltas. Otherwise nothing changes. */
    method Apply(sequence: U64, deltas: seq<Delta>) returns (applied: bool)
      modifies this
      ensures applied <==> old(lastApplied) != U64_MAX && sequence == old(lastApplied) + 1
                           && AllFit(old(totals), deltas)
      ensures applied ==> lastApplied == sequence
      ensures applied ==> forall k, c :: Held(totals, k, c) == Held(old(totals), k, c) + DeltaSum(deltas, k, c)
      ensures !applied ==> lastApplied == old(lastApplied) && totals == old(totals)
    {
      if lastApplied == U64_MAX || sequence != lastApplied + 1 {
        return false;
      }
      var adds, fits := StageDeltas(totals, deltas);
      if !fits {
        return false;
      }
      for n := 0 to |adds|
        invariant lastApplied == old(lastApplied)
        invariant forall k, c :: Held(totals, k, c) == Held(old(totals), k, c) + DeltaSum(deltas[..n], k, c)
      {
        ghost var before := totals;
        assert RunningSum(old(totals), deltas, n, adds[n]);
        totals := totals[adds[n].key := adds[n].add];
        forall k, c
          ensures Held(totals, k, c) == Held(old(totals), k, c) + DeltaSum(deltas[..n + 1], k, c)
        {
          DeltaSumStep(deltas, n, k, c);
          assert Held(before, k, c) == Held(old(totals), k, c) + DeltaSum(deltas[..n], k, c);
          assert Reading(adds[n].add, c) ==
              Held(old(totals), adds[n].key, c) + DeltaSum(deltas[..n + 1], adds[n].key, c);
        }
      }
      assert deltas[..|deltas|] == deltas;
      lastApplied := sequence;
      applied := true;
    }
  }
}
