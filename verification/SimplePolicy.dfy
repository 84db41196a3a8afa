/** The simple policy: by health, then by connection score. Rebalancing by it terminates. */
module SimplePolicy {
  import opened Common

  const CONN_BALANCED_RATIO: real := 1.2
  const BALANCE_COUNT_FOR_HEALTH: real := 1000.0

  datatype Ctx = Ctx(id: string, healthy: bool, score: int)

  datatype Reason = Status | Conn

  /** The order of the sort: healthy before unhealthy, then by score. */
  predicate Less(a: Ctx, b: Ctx) {
    (a.healthy && !b.healthy) || (a.healthy == b.healthy && a.score < b.score)
  }

  predicate SortedBy(s: seq<Ctx>) {
    forall i, j :: 0 <= i < j < |s| ==> !Less(s[j], s[i])
  }

  /** Whether to migrate, given the two ends of the sorted backends. */
  function Decide(from: Ctx, to: Ctx): Option<Reason> {
    if !to.healthy || from.score <= 0 then None
    else if !from.healthy then Some(Status)
    else if from.score as real <= (to.score + 1) as real * CONN_BALANCED_RATIO then None
    else Some(Conn)
  }

  // ---------------------------------------------------------------- methods

  lemma {:induction false} InsertSorts(s: seq<Ctx>, k: nat, x: Ctx)
    requires SortedBy(s) && k <= |s|
    requires forall j :: 0 <= j < k ==> !Less(x, s[j])
    requires k < |s| ==> Less(x, s[k])
    ensures SortedBy(s[..k] + [x] + s[k..])
  {
    assert forall j :: k < j < |s| ==> !Less(s[j], s[k]);
    assert forall j :: k <= j < |s| ==> !Less(s[j], x);
  }

  lemma {:induction false} InsertKeepsSorted(s: seq<Ctx>, k: nat, x: Ctx)
    requires SortedBy(s) && k <= |s|
    requires forall j :: 0 <= j < k ==> !Less(x, s[j])
    requires k < |s| ==> Less(x, s[k])
    ensures SortedBy(s[..k] + [x] + s[k..])
    ensures multiset(s[..k] + [x] + s[k..]) == multiset(s) + multiset{x}
  {
    hide SortedBy;
    assert s == s[..k] + s[k..];
    InsertSorts(s, k, x);
  }

  method Insert(s: seq<Ctx>, x: Ctx) returns (r: seq<Ctx>)
    requires SortedBy(s)
    ensures multiset(r) == multiset(s) + multiset{x} && SortedBy(r)
  {
    var k := 0;
    while k < |s| && !Less(x, s[k])
      invariant k <= |s| && forall j :: 0 <= j < k ==> !Less(x, s[j])
    {
      k := k + 1;
    }
    InsertKeepsSorted(s, k, x);
    r := s[..k] + [x] + s[k..];
  }

  /** Sorts the slice in place. */
  method SortBackends(a: array<Ctx>)
    modifies a
    ensures multiset(a[..]) == multiset(old(a[..])) && SortedBy(a[..])
  {
    var s: seq<Ctx> := [];
    for i := 0 to a.Length
      invariant multiset(s) == multiset(a[..i]) && SortedBy(s) && a[..] == old(a[..])
    {
      assert a[..i + 1] == a[..i] + [a[i]];
      s := Insert(s, a[i]);
    }
    assert a[..a.Length] == a[..];
    assert |multiset(s)| == |s| && |multiset(a[..])| == a.Length;
    forall i | 0 <= i < a.Length {
      a[i] := s[i];
    }
    assert a[..] == s;
  }

  /** Position i holds a largest element and position j a smallest one. */
  predicate Ends(s: seq<Ctx>, i: nat, j: nat) {
    i < |s| && j < |s| && forall k :: 0 <= k < |s| ==> !Less(s[i], s[k]) && !Less(s[k], s[j])
  }

  lemma {:induction false} EndsOfSorted(s: seq<Ctx>, sorted: seq<Ctx>) returns (i: nat, j: nat)
    requires multiset(s) == multiset(sorted) && SortedBy(sorted) && |s| == |sorted| > 0
    ensures Ends(s, i, j) && s[i] == sorted[|sorted| - 1] && s[j] == sorted[0]
  {
    assert sorted[0] in multiset(sorted) && sorted[|sorted| - 1] in multiset(sorted);
    i :| 0 <= i < |s| && s[i] == sorted[|sorted| - 1];
    j :| 0 <= j < |s| && s[j] == sorted[0];
    forall k | 0 <= k < |s| ensures !Less(s[i], s[k]) && !Less(s[k], s[j]) {
      assert s[k] in multiset(sorted);
      var m :| 0 <= m < |sorted| && sorted[m] == s[k];
    }
  }

  /** Sorts, and takes the last and the first. */
  method SortedEnds(a: array<Ctx>) returns (from: Ctx, to: Ctx, ghost i: nat, ghost j: nat)
    requires a.Length > 0
    modifies a
    ensures multiset(a[..]) == multiset(old(a[..]))
    ensures Ends(old(a[..]), i, j) && from == old(a[..])[i] && to == old(a[..])[j]
  {
    SortBackends(a);
    i, j := EndsOfSorted(old(a[..]), a[..]);
    from, to := a[a.Length - 1], a[0];
  }

  /** The least loaded healthy backend, if any is healthy. */
  method BackendToRoute(a: array<Ctx>) returns (r: Option<Ctx>)
    modifies a
    ensures multiset(a[..]) == multiset(old(a[..]))
    ensures r.Some? <==> exists b :: b in old(a[..]) && b.healthy
    ensures r.Some? ==> r.value in old(a[..]) && r.value.healthy && forall b :: b in old(a[..]) && b.healthy ==>
        r.value.score <= b.score
  {
    if a.Length == 0 {
      return None;
    }
    var _, to, i, j := SortedEnds(a);
    EndsAreExtreme(old(a[..]), i, j);
    r := if to.healthy then Some(to) else None;
  }

  /** Chooses the two ends of the sorted backends, and decides by them. */
  method BackendsToBalance(a: array<Ctx>) returns (r: Option<(Ctx, Ctx, real, Reason)>, ghost i: nat, ghost j: nat)
    modifies a
    ensures multiset(a[..]) == multiset(old(a[..]))
    ensures r.None? <==> AtRest(old(a[..]))
    ensures r.Some? ==>
              && Ends(old(a[..]), i, j) && old(a[..])[i] == r.value.0 && old(a[..])[j] == r.value.1
              && Decide(r.value.0, r.value.1) == Some(r.value.3)
              && r.value.2 == (if r.value.3 == Status then BALANCE_COUNT_FOR_HEALTH else 1.0)
  {
    i, j := 0, 0;
    if a.Length <= 1 {
      FewAreAtRest(a[..]);
      return None, i, j;
    }
    var from, to;
    from, to, i, j := SortedEnds(a);
    RestByEnds(old(a[..]), i, j);
    if !to.healthy || from.score <= 0 {
      return None, i, j;
    }
    if !from.healthy {
      return Some((from, to, BALANCE_COUNT_FOR_HEALTH, Status)), i, j;
    }
    if from.score as real <= (to.score + 1) as real * CONN_BALANCED_RATIO {
      return None, i, j;
    }
    return Some((from, to, 1.0, Conn)), i, j;
  }

  // -------------------------------------------------------------------- rest

  /** No migration is chosen, whichever ends the sort gives. */
  ghost predicate AtRest(s: seq<Ctx>) {
    forall i: nat, j: nat :: Ends(s, i, j) ==> Decide(s[i], s[j]).None?
  }

  /** Elements that are both largest, or both smallest, differ in identity only. */
  lemma {:induction false} RestByEnds(s: seq<Ctx>, i: nat, j: nat)
    requires Ends(s, i, j)
    ensures AtRest(s) <==> Decide(s[i], s[j]).None?
  {
    forall x: nat, y: nat | Ends(s, x, y) ensures Decide(s[x], s[y]) == Decide(s[i], s[j]) {
      assert !Less(s[i], s[x]) && !Less(s[x], s[i]);
      assert !Less(s[j], s[y]) && !Less(s[y], s[j]);
    }
  }

  lemma {:induction false} FewAreAtRest(s: seq<Ctx>)
    requires |s| <= 1
    ensures AtRest(s)
  {
  }

  lemma {:induction false} RatioMeans(x: int, y: int)
    ensures x as real <= (y + 1) as real * CONN_BALANCED_RATIO <==> 5 * x <= 6 * (y + 1)
  {
  }

  /** Exactly when rebalancing rests. With all healthy, the largest score is within the ratio
      of the smallest plus one; an unhealthy backend without connections stops everything. */
  lemma {:induction false} RestMeans(s: seq<Ctx>)
    requires forall b :: b in s ==> b.score >= 0
    ensures AtRest(s) <==>
              || (forall b :: b in s ==> !b.healthy)
              || ((exists b :: b in s && !b.healthy) && forall b :: b in s && !b.healthy ==> b.score == 0)
              || ((forall b :: b in s ==> b.healthy) && forall x, y :: x in s && y in s ==>
                  5 * x.score <= 6 * (y.score + 1))
  {
    if |s| > 0 {
      var i, j := FindEnds(s);
      RestByEnds(s, i, j);
      EndsAreExtreme(s, i, j);
      if s[i].healthy && s[j].healthy {
        RatioMeans(s[i].score, s[j].score);
      }
    }
  }

  lemma {:induction false} EndsAreExtreme(s: seq<Ctx>, i: nat, j: nat)
    requires Ends(s, i, j)
    ensures s[i] in s && s[j] in s
    ensures s[j].healthy <==> exists b :: b in s && b.healthy
    ensures s[i].healthy <==> forall b :: b in s ==> b.healthy
    ensures forall b :: b in s && b.healthy == s[i].healthy ==> b.score <= s[i].score
    ensures forall b :: b in s && b.healthy == s[j].healthy ==> b.score >= s[j].score
  {
  }

  lemma {:induction false} FindEnds(s: seq<Ctx>) returns (i: nat, j: nat)
    requires |s| > 0
    ensures Ends(s, i, j)
    decreases |s|
  {
    if |s| == 1 {
      return 0, 0;
    }
    var last := |s| - 1;
    i, j := FindEnds(s[..last]);
    assert forall k :: 0 <= k < last ==> s[..last][k] == s[k];
    if Less(s[i], s[last]) {
      i := last;
    }
    if Less(s[last], s[j]) {
      j := last;
    }
  }

  // ------------------------------------------------------------- termination

  function Total(s: seq<Ctx>): int {
    if s == [] then 0 else s[0].score + Total(s[1..])
  }

  function Unhealthy(s: seq<Ctx>): int {
    if s == [] then 0 else (if s[0].healthy then 0 else s[0].score) + Unhealthy(s[1..])
  }

  function Squares(s: seq<Ctx>): int {
    if s == [] then 0 else (if s[0].healthy then s[0].score * s[0].score else 0) + Squares(s[1..])
  }

  /** One connection's score moves from position i to position j. */
  function Moved(s: seq<Ctx>, i: nat, j: nat): seq<Ctx>
    requires i < |s| && j < |s|
  {
    var taken := s[i := s[i].(score := s[i].score - 1)];
    taken[j := taken[j].(score := taken[j].score + 1)]
  }

  ghost predicate Step(s: seq<Ctx>, t: seq<Ctx>) {
    exists i: nat, j: nat :: Ends(s, i, j) && Decide(s[i], s[j]).Some? && t == Moved(s, i, j)
  }

  lemma {:induction false} Rescored(s: seq<Ctx>, i: nat, x: int)
    requires i < |s|
    ensures var t := s[i := s[i].(score := x)];
            && Total(t) == Total(s) - s[i].score + x
            && Unhealthy(t) == Unhealthy(s) + (if s[i].healthy then 0 else x - s[i].score)
            && Squares(t) == Squares(s) + (if s[i].healthy then x * x - s[i].score * s[i].score else 0)
    decreases i
  {
    var t := s[i := s[i].(score := x)];
    if i == 0 {
      assert t[1..] == s[1..];
    } else {
      Rescored(s[1..], i - 1, x);
      assert t[1..] == s[1..][i - 1 := s[i].(score := x)];
    }
  }

  lemma {:induction false} SquaresShrink(x: int, y: int)
    requires x >= y + 2
    ensures (x - 1) * (x - 1) + (y + 1) * (y + 1) < x * x + y * y
  {
    assert (x - 1) * (x - 1) == x * x - 2 * x + 1;
    assert (y + 1) * (y + 1) == y * y + 2 * y + 1;
  }

  lemma {:induction false} ConnMovesApart(from: Ctx, to: Ctx)
    requires to.score >= 0 && Decide(from, to) == Some(Conn)
    ensures from.healthy && to.healthy && from.score >= to.score + 2
  {
    assert (to.score + 1) as real * CONN_BALANCED_RATIO >= (to.score + 1) as real;
  }

  predicate Nonnegative(s: seq<Ctx>) {
    forall i :: 0 <= i < |s| ==> s[i].score >= 0
  }

  /** A move conserves the total, and takes from the unhealthy or lowers the squares. */
  lemma {:induction false} MoveProgresses(s: seq<Ctx>, i: nat, j: nat)
    requires Nonnegative(s) && Ends(s, i, j) && Decide(s[i], s[j]).Some?
    ensures var t := Moved(s, i, j);
            && |t| == |s| && Nonnegative(t) && Total(t) == Total(s)
            && if s[i].healthy then Unhealthy(t) == Unhealthy(s) && Squares(t) < Squares(s)
               else Unhealthy(t) == Unhealthy(s) - 1
  {
    if s[i].healthy {
      ConnMovesApart(s[i], s[j]);
      SquaresShrink(s[i].score, s[j].score);
    }
    Rescored(s, i, s[i].score - 1);
    var taken := s[i := s[i].(score := s[i].score - 1)];
    Rescored(taken, j, taken[j].score + 1);
  }

  lemma {:induction false} SumsNonnegative(s: seq<Ctx>)
    requires Nonnegative(s)
    ensures 0 <= Unhealthy(s) <= Total(s) && 0 <= Squares(s) <= Square(Total(s))
    decreases |s|
  {
    if s != [] {
      SumsNonnegative(s[1..]);
      SquareOfSum(s[0].score, Total(s[1..]));
    }
  }

  lemma {:induction false} SquareOfSum(x: int, y: int)
    requires x >= 0 && y >= 0
    ensures x * x + y * y <= (x + y) * (x + y) && y * y <= (x + y) * (x + y)
  {
    assert (x + y) * (x + y) == x * x + 2 * (x * y) + y * y;
  }

  function Square(n: int): int {
    n * n
  }

  /** What is left to do, for a total of n: it falls with every move. */
  function Potential(s: seq<Ctx>, n: int): int {
    Unhealthy(s) * (Square(n) + 1) + Squares(s)
  }

  lemma {:induction false} StepLowersPotential(s: seq<Ctx>, t: seq<Ctx>)
    requires Nonnegative(s) && Step(s, t)
    ensures Nonnegative(t) && Total(t) == Total(s)
    ensures 0 <= Potential(t, Total(s)) < Potential(s, Total(s))
  {
    hide Moved, Total, Unhealthy, Squares, Square, Decide, Less;
    var i: nat, j: nat :| Ends(s, i, j) && Decide(s[i], s[j]).Some? && t == Moved(s, i, j);
    MoveProgresses(s, i, j);
    SumsNonnegative(s);
    SumsNonnegative(t);
    PotentialFalls(Unhealthy(s), Unhealthy(t), Squares(s), Squares(t), Square(Total(s)));
  }

  lemma {:induction false} PotentialFalls(u: int, v: int, p: int, q: int, m: int)
    requires 0 <= p <= m && 0 <= q <= m && 0 <= v
    requires (v == u && q < p) || v == u - 1
    ensures 0 <= v * (m + 1) + q < u * (m + 1) + p
  {
    assert (v + 1) * (m + 1) == v * (m + 1) + m + 1;
    assert v * (m + 1) >= 0;
  }

  ghost predicate Run(states: seq<seq<Ctx>>) {
    |states| > 0 && forall k :: 0 < k < |states| ==> Step(states[k - 1], states[k])
  }

  /** Rebalancing terminates: every run conserves the total, and makes at most as many moves
      as the potential of its first state. */
  lemma {:induction false} RebalancingTerminates(states: seq<seq<Ctx>>)
    requires Run(states) && Nonnegative(states[0])
    ensures var last := states[|states| - 1];
            && Nonnegative(last) && Total(last) == Total(states[0])
            && 0 <= Potential(last, Total(states[0]))
            && |states| - 1 <= Potential(states[0], Total(states[0])) - Potential(last, Total(states[0]))
    decreases |states|
  {
    if |states| == 1 {
      SumsNonnegative(states[0]);
      assert Unhealthy(states[0]) * (Square(Total(states[0])) + 1) >= 0;
    } else {
      var before := states[..|states| - 1];
      RebalancingTerminates(before);
      StepLowersPotential(before[|before| - 1], states[|states| - 1]);
    }
  }

  /** From every state some run of chosen moves reaches rest. */
  lemma {:induction false} RestIsReached(s: seq<Ctx>) returns (states: seq<seq<Ctx>>)
    requires Nonnegative(s)
    ensures Run(states) && states[0] == s && AtRest(states[|states| - 1])
    decreases PotentialOf(s)
  {
    if AtRest(s) {
      return [s];
    }
    var i: nat, j: nat :| Ends(s, i, j) && Decide(s[i], s[j]).Some?;
    var t := Moved(s, i, j);
    StepLowersPotential(s, t);
    var rest := RestIsReached(t);
    states := [s] + rest;
    forall k | 0 < k < |states| ensures Step(states[k - 1], states[k]) {
      if k > 1 {
        assert Step(rest[k - 2], rest[k - 1]);
      }
    }
  }

  function PotentialOf(s: seq<Ctx>): int {
    Potential(s, Total(s))
  }

  /** Unbalanced by any measure, and yet at rest: an unhealthy backend without connections is the
      largest in the order, and gives nothing away. */
  lemma {:induction false} StallHappens()
    ensures AtRest([Ctx("a", true, 100), Ctx("b", true, 0), Ctx("c", false, 0)])
    ensures !AtRest([Ctx("a", true, 100), Ctx("b", true, 0)])
  {
    var s := [Ctx("a", true, 100), Ctx("b", true, 0), Ctx("c", false, 0)];
    RestByEnds(s, 2, 1);
    RestByEnds([Ctx("a", true, 100), Ctx("b", true, 0)], 0, 1);
  }
}
