/** Where new connections go: the three routing policies over scored backends. */
module FactorRouting {
  import opened Common
  import opened ScoreBits
  import opened FactorScores
  import opened FactorBalance

  // --------------------------------------------------------------- eviction

  /** The balance count that prefer-idle ends with, from factor k on. A factor in the opposite
      order ends the scan, and so does one that wants to drain. */
  function LastCount(fs: seq<Factor>, from: Backend, to: Backend, k: nat, count: real): real
    decreases |fs| - k
  {
    if k >= |fs| then count
    else if Rated(fs[k], from) > Rated(fs[k], to) then
      var (_, c) := fs[k].advise(from, to);
      if Wants(fs, from, to, k) then c else LastCount(fs, from, to, k + 1, c)
    else if Rated(fs[k], from) < Rated(fs[k], to) then count
    else LastCount(fs, from, to, k + 1, count)
  }

  /** Too busy for prefer-idle to route to. */
  predicate Evicted(fs: seq<Factor>, from: Backend, to: Backend) {
    LastCount(fs, from, to, 0, 0.0) > MIN_COUNT
  }

  lemma {:induction false} WantedIsEvicted(fs: seq<Factor>, from: Backend, to: Backend, j: nat, k: nat, count: real)
    requires j <= k < |fs| && Wants(fs, from, to, k)
    requires forall e :: j <= e < k ==> Rated(fs[e], from) >= Rated(fs[e], to)
    ensures LastCount(fs, from, to, j, count) > MIN_COUNT
    decreases k - j
  {
    if j < k && !Wants(fs, from, to, j) {
      if Rated(fs[j], from) > Rated(fs[j], to) {
        WantedIsEvicted(fs, from, to, j + 1, k, fs[j].advise(from, to).1);
      } else {
        WantedIsEvicted(fs, from, to, j + 1, k, count);
      }
    }
  }

  /** What balancing would drain toward the idlest backend, prefer-idle does not route to. */
  lemma {:induction false} DrainedIsEvicted(fs: seq<Factor>, from: Backend, to: Backend)
    requires Drained(fs, from, to)
    ensures Evicted(fs, from, to)
  {
    var k :| 0 <= k < |fs| && Drains(fs, from, to, k);
    forall e | 0 <= e < k ensures Rated(fs[e], from) >= Rated(fs[e], to) {
      assert Tolerates(fs, from, to, e);
    }
    WantedIsEvicted(fs, from, to, 0, k, 0.0);
  }

  lemma {:induction false} NeverAbove(fs: seq<Factor>, from: Backend, to: Backend, k: nat, count: real)
    requires forall e :: k <= e < |fs| ==> Rated(fs[e], from) <= Rated(fs[e], to)
    ensures LastCount(fs, from, to, k, count) == count
    decreases |fs| - k
  {
    if k < |fs| {
      NeverAbove(fs, from, to, k + 1, count);
    }
  }

  /** What no factor ranks above the idlest backend is not evicted. */
  lemma {:induction false} LevelIsKept(fs: seq<Factor>, from: Backend, to: Backend)
    requires forall k :: 0 <= k < |fs| ==> Rated(fs[k], from) <= Rated(fs[k], to)
    ensures !Evicted(fs, from, to)
  {
    NeverAbove(fs, from, to, 0, 0.0);
  }

  method CountFor(fs: seq<Factor>, from: Scored, to: Scored) returns (count: real)
    requires TotalWidth(fs) <= MAX_BIT_NUM && from.bits == Bits(fs, from.ctx) && to.bits == Bits(fs, to.ctx)
    ensures count == LastCount(fs, from.ctx, to.ctx, 0, 0.0)
  {
    var left := TotalWidth(fs);
    count := 0.0;
    assert fs[0..] == fs;
    for k := 0 to |fs|
      invariant left == TotalWidth(fs[k..])
      invariant LastCount(fs, from.ctx, to.ctx, k, count) == LastCount(fs, from.ctx, to.ctx, 0, 0.0)
    {
      ReadsBack(fs, from.ctx, k);
      ReadsBack(fs, to.ctx, k);
      WidthFrom(fs, k);
      var score1 := Extract(from.bits, left, fs[k].width);
      var score2 := Extract(to.bits, left, fs[k].width);
      if score1 > score2 {
        var (advice, c) := fs[k].advise(from.ctx, to.ctx);
        count := c;
        if advice == Positive && count > MIN_COUNT {
          return;
        }
      } else if score1 < score2 {
        return;
      }
      left := left - fs[k].width;
    }
  }

  // --------------------------------------------------------------- policies

  /** Draws one position evenly. */
  function Draw(positions: seq<nat>, ticket: nat): (r: nat)
    requires |positions| > 0
    ensures r in positions
  {
    positions[ticket % |positions|]
  }

  /** Draws one position, the first of them with a slightly higher chance. */
  function DrawFavouring(positions: seq<nat>, ticket: nat): (r: nat)
    requires |positions| > 0
    ensures r in positions
  {
    Draw(positions, ticket % (|positions| * 10 + 1))
  }

  lemma {:induction false} SmallModulo(k: nat, n: nat)
    requires k < n
    ensures k % n == k
  {
  }

  /** Every position is drawn by some ticket. */
  lemma {:induction false} EveryOneIsDrawn(positions: seq<nat>, k: nat)
    requires k < |positions|
    ensures Draw(positions, k) == DrawFavouring(positions, k) == positions[k]
  {
    SmallModulo(k, |positions|);
    SmallModulo(k, |positions| * 10 + 1);
  }

  /** The positions above i that are not too busy, the highest first. */
  function IdleAbove(fs: seq<Factor>, order: seq<Scored>, i: nat): seq<nat>
    requires i < |order|
    decreases |order| - i
  {
    if i == |order| - 1 then []
    else if Evicted(fs, order[i + 1].ctx, order[0].ctx) then IdleAbove(fs, order, i + 1)
    else IdleAbove(fs, order, i + 1) + [i + 1]
  }

  /** The positions that prefer-idle chooses among; the idlest always is one. */
  function Kept(fs: seq<Factor>, order: seq<Scored>): seq<nat>
    requires |order| > 0
  {
    IdleAbove(fs, order, 0) + [0]
  }

  lemma {:induction false} IdleAboveMembers(fs: seq<Factor>, order: seq<Scored>, i: nat, j: nat)
    requires i < |order|
    ensures j in IdleAbove(fs, order, i) <==> i < j < |order| && !Evicted(fs, order[j].ctx, order[0].ctx)
    decreases |order| - i
  {
    if i < |order| - 1 {
      IdleAboveMembers(fs, order, i + 1, j);
    }
  }

  /** Collects the positions that are not too busy. */
  method KeepIdle(fs: seq<Factor>, order: seq<Scored>) returns (kept: seq<nat>)
    requires TotalWidth(fs) <= MAX_BIT_NUM && Carries(fs, order) && |order| > 0
    ensures kept == Kept(fs, order)
  {
    kept := [];
    var i := |order| - 1;
    while i > 0
      invariant 0 <= i < |order|
      invariant kept == IdleAbove(fs, order, i)
    {
      var count := CountFor(fs, order[i], order[0]);
      if count <= MIN_COUNT {
        kept := kept + [i];
      }
      i := i - 1;
    }
    kept := kept + [0];
  }

  method RoutePreferIdle(fs: seq<Factor>, order: seq<Scored>, ticket: nat) returns (r: Option<nat>)
    requires TotalWidth(fs) <= MAX_BIT_NUM && Carries(fs, order) && |order| > 0
    ensures r.Some? <==> Routeable(fs, order[0].ctx)
    ensures r.Some? ==> r.value == Draw(Kept(fs, order), ticket)
  {
    var ok := CanBeRouted(fs, order[0]);
    if !ok {
      return None;
    }
    if |order| == 1 {
      return Some(0);
    }
    var kept := KeepIdle(fs, order);
    var at := if |kept| > 1 then Draw(kept, ticket) else 0;
    return Some(at);
  }

  method RouteIdlest(fs: seq<Factor>, order: seq<Scored>) returns (r: Option<nat>)
    requires TotalWidth(fs) <= MAX_BIT_NUM && Carries(fs, order)
    ensures r.None? ==> forall i :: 0 <= i < |order| ==> !Routeable(fs, order[i].ctx)
    ensures r.Some? ==> r.value < |order| && Routeable(fs, order[r.value].ctx)
    ensures r.Some? ==> forall i :: 0 <= i < r.value ==> !Routeable(fs, order[i].ctx)
  {
    for i := 0 to |order|
      invariant forall j :: 0 <= j < i ==> !Routeable(fs, order[j].ctx)
    {
      var ok := CanBeRouted(fs, order[i]);
      if ok {
        return Some(i);
      }
    }
    return None;
  }

  /** The first n positions that are routeable, in order. */
  function Open(fs: seq<Factor>, order: seq<Scored>, n: nat): seq<nat>
    requires n <= |order|
  {
    if n == 0 then []
    else if Routeable(fs, order[n - 1].ctx) then Open(fs, order, n - 1) + [n - 1]
    else Open(fs, order, n - 1)
  }

  lemma {:induction false} OpenAreRouteable(fs: seq<Factor>, order: seq<Scored>, n: nat, j: nat)
    requires n <= |order|
    ensures j in Open(fs, order, n) <==> j < n && Routeable(fs, order[j].ctx)
    decreases n
  {
    if n > 0 {
      OpenAreRouteable(fs, order, n - 1, j);
    }
  }

  /** Any routeable position with about the same chance. A single one is not looked up: the
      answer is then position 0. */
  method RouteRandom(fs: seq<Factor>, order: seq<Scored>, ticket: nat) returns (r: Option<nat>)
    requires TotalWidth(fs) <= MAX_BIT_NUM && Carries(fs, order)
    ensures var open := Open(fs, order, |order|);
            r == if |open| == 0 then None else if |open| == 1 then Some(0) else Some(DrawFavouring(open, ticket))
  {
    var open: seq<nat> := [];
    for i := 0 to |order|
      invariant open == Open(fs, order, i)
    {
      var ok := CanBeRouted(fs, order[i]);
      if ok {
        open := open + [i];
      }
    }
    if |open| == 0 {
      return None;
    }
    var at := 0;
    if |open| > 1 {
      at := DrawFavouring(open, ticket);
    }
    return Some(at);
  }

  // ------------------------------------------------------------ correctness

  /** The first g factors are gates, which let only score zero through; the others let
      everything through. */
  ghost predicate Gated(fs: seq<Factor>, g: nat) {
    && g <= |fs|
    && (forall k, s: nat {:trigger fs[k].canRoute(s)} :: 0 <= k < g ==> (fs[k].canRoute(s) <==> s == 0))
    && (forall k, s: nat {:trigger fs[k].canRoute(s)} :: g <= k < |fs| ==> fs[k].canRoute(s))
  }

  /** On these backends, a gate that shuts one out and lets another in wants it drained. */
  ghost predicate GatesEvict(fs: seq<Factor>, g: nat, backends: seq<Backend>) {
    && g <= |fs|
    && forall k, a, b :: 0 <= k < g && a in backends && b in backends && Rated(fs[k], a) > Rated(fs[k], b) ==>
        Wants(fs, a, b, k)
  }

  lemma {:induction false} ZerosBelow(x: seq<nat>, y: seq<nat>, g: nat, k: nat)
    requires |x| == |y| && k < g <= |x| && !LexLess(y, x)
    requires forall i :: 0 <= i < g ==> y[i] == 0
    ensures x[k] == 0
    decreases k
  {
    assert x[0] == 0;
    if k > 0 {
      ZerosBelow(x[1..], y[1..], g - 1, k - 1);
    }
  }

  /** Whatever ranks below a routeable backend is routeable: the routeable ones come first. */
  lemma {:induction false} RouteableComeFirst(fs: seq<Factor>, g: nat, a: Backend, b: Backend)
    requires TotalWidth(fs) <= MAX_BIT_NUM && Gated(fs, g)
    requires Bits(fs, a) <= Bits(fs, b) && Routeable(fs, b)
    ensures Routeable(fs, a)
  {
    BitsMeanPriority(fs, b, a);
    var x, y := Scores(Fields(fs, a)), Scores(Fields(fs, b));
    assert forall i :: 0 <= i < |fs| ==> x[i] == Rated(fs[i], a) && y[i] == Rated(fs[i], b);
    forall k | 0 <= k < |fs| ensures fs[k].canRoute(Rated(fs[k], a)) {
      if k < g {
        assert forall i :: 0 <= i < g ==> fs[i].canRoute(Rated(fs[i], b));
        ZerosBelow(x, y, g, k);
      }
    }
  }

  /** What prefer-idle keeps is routeable, when the idlest is. */
  lemma {:induction false} KeptIsRouteable(fs: seq<Factor>, g: nat, backends: seq<Backend>, a: Backend, idlest: Backend)
    requires Gated(fs, g) && GatesEvict(fs, g, backends) && a in backends && idlest in backends
    requires Routeable(fs, idlest) && !Evicted(fs, a, idlest)
    ensures Routeable(fs, a)
  {
    assert forall k :: 0 <= k < g ==> fs[k].canRoute(Rated(fs[k], idlest));
    if k :| 0 <= k < g && Rated(fs[k], a) > 0 {
      assert Wants(fs, a, idlest, k);
      WantedIsEvicted(fs, a, idlest, 0, k, 0.0);
    }
    assert forall k :: 0 <= k < g ==> Rated(fs[k], a) == 0;
  }

  datatype RoutePolicy = PreferIdle | Random | Idlest

  predicate SomeRouteable(fs: seq<Factor>, backends: seq<Backend>) {
    exists b :: b in backends && Routeable(fs, b)
  }

  lemma {:induction false} RankedAreInputs(fs: seq<Factor>, backends: seq<Backend>, order: seq<Scored>)
    requires Ranks(fs, backends, order)
    ensures forall i :: 0 <= i < |order| ==> order[i].ctx in backends
    ensures forall b :: b in backends ==> exists i :: 0 <= i < |order| && order[i].ctx == b
  {
    var packed := Packed(fs, backends);
    forall i | 0 <= i < |order| ensures order[i].ctx in backends {
      assert order[i] in multiset(order);
      assert order[i] in packed;
    }
    forall b | b in backends ensures exists i :: 0 <= i < |order| && order[i].ctx == b {
      var j :| 0 <= j < |backends| && backends[j] == b;
      assert packed[j] in multiset(packed);
      assert packed[j] in order;
    }
  }

  lemma {:induction false} IdlestDecides(fs: seq<Factor>, g: nat, backends: seq<Backend>, order: seq<Scored>)
    requires TotalWidth(fs) <= MAX_BIT_NUM && Gated(fs, g) && Ranks(fs, backends, order) && |backends| > 0
    ensures Routeable(fs, order[0].ctx) <==> SomeRouteable(fs, backends)
  {
    RankedAreInputs(fs, backends, order);
    if b :| b in backends && Routeable(fs, b) {
      var i :| 0 <= i < |order| && order[i].ctx == b;
      assert i == 0 || order[0].bits <= order[i].bits;
      RouteableComeFirst(fs, g, order[0].ctx, b);
    }
  }

  /** Routing is sound and complete for every policy and every ticket: it answers if and only
      if some backend is routeable, and then with a routeable one of the given backends.
      Prefer-idle moreover never picks what balancing would drain toward the idlest. */
  method BackendToRoute(fs: seq<Factor>, backends: seq<Backend>, policy: RoutePolicy, ticket: nat, ghost g: nat)
    returns (r: Option<Backend>, order: seq<Scored>)
    requires TotalWidth(fs) <= MAX_BIT_NUM && Gated(fs, g) && GatesEvict(fs, g, backends)
    ensures Ranks(fs, backends, order)
    ensures r.Some? <==> SomeRouteable(fs, backends)
    ensures r.Some? ==> r.value in backends && Routeable(fs, r.value)
    ensures r.Some? && policy == Idlest ==> forall b :: b in backends && Routeable(fs, b) ==>
        Bits(fs, r.value) <= Bits(fs, b)
    ensures r.Some? && policy == PreferIdle ==> !Drained(fs, r.value, order[0].ctx)
  {
    order := UpdateScore(fs, backends);
    if |backends| == 0 {
      return None, order;
    }
    RankedAreInputs(fs, backends, order);
    IdlestDecides(fs, g, backends, order);
    var at: Option<nat>;
    match policy {
      case Random =>
        at := RouteRandom(fs, order, ticket);
        RandomIsSound(fs, g, backends, order, ticket);
      case Idlest =>
        at := RouteIdlest(fs, order);
        if at.Some? {
          FirstIsLeast(fs, g, backends, order, at.value);
        }
      case PreferIdle =>
        at := RoutePreferIdle(fs, order, ticket);
        if at.Some? {
          PreferIdleIsSound(fs, g, backends, order, ticket);
        }
    }
    r := if at.None? then None else Some(order[at.value].ctx);
  }

  /** All routeable inputs, idlest first. */
  method RouteableBackends(fs: seq<Factor>, backends: seq<Backend>) returns (r: seq<Backend>)
    requires TotalWidth(fs) <= MAX_BIT_NUM
    ensures forall b :: b in r <==> b in backends && Routeable(fs, b)
    ensures forall i, j :: 0 <= i < j < |r| ==> Bits(fs, r[i]) <= Bits(fs, r[j])
  {
    r := [];
    if |backends| == 0 {
      return;
    }
    var order := UpdateScore(fs, backends);
    RankedAreInputs(fs, backends, order);
    for k := 0 to |order|
      invariant forall b :: b in r <==> exists i :: 0 <= i < k && order[i].ctx == b && Routeable(fs, b)
      invariant forall i, j :: 0 <= i < j < |r| ==> Bits(fs, r[i]) <= Bits(fs, r[j])
      invariant forall i :: 0 <= i < |r| && k < |order| ==> Bits(fs, r[i]) <= order[k].bits
    {
      var ok := CanBeRouted(fs, order[k]);
      if ok {
        r := r + [order[k].ctx];
      }
    }
  }

  lemma {:induction false} FirstIsLeast(fs: seq<Factor>, g: nat, backends: seq<Backend>, order: seq<Scored>, at: nat)
    requires TotalWidth(fs) <= MAX_BIT_NUM && Ranks(fs, backends, order) && at < |order|
    requires forall i :: 0 <= i < at ==> !Routeable(fs, order[i].ctx)
    ensures forall b :: b in backends && Routeable(fs, b) ==> Bits(fs, order[at].ctx) <= Bits(fs, b)
  {
    RankedAreInputs(fs, backends, order);
    forall b | b in backends && Routeable(fs, b) ensures Bits(fs, order[at].ctx) <= Bits(fs, b) {
      var i :| 0 <= i < |order| && order[i].ctx == b;
      assert i >= at;
      assert i == at || order[at].bits <= order[i].bits;
    }
  }

  lemma {:induction false} RandomIsSound(fs: seq<Factor>, g: nat, backends: seq<Backend>, order: seq<Scored>,
      ticket: nat)
    requires TotalWidth(fs) <= MAX_BIT_NUM && Gated(fs, g) && Ranks(fs, backends, order) && |backends| > 0
    ensures var open := Open(fs, order, |order|);
            && (|open| > 0 <==> SomeRouteable(fs, backends))
            && (|open| == 1 ==> Routeable(fs, order[0].ctx))
            && (|open| > 1 ==> var at := DrawFavouring(open, ticket); at < |order| && Routeable(fs, order[at].ctx))
  {
    RankedAreInputs(fs, backends, order);
    IdlestDecides(fs, g, backends, order);
    var open := Open(fs, order, |order|);
    if |open| > 0 {
      OpenAreRouteable(fs, order, |order|, open[0]);
      OpenAreRouteable(fs, order, |order|, DrawFavouring(open, ticket));
    }
    OpenAreRouteable(fs, order, |order|, 0);
  }

  lemma {:induction false} PreferIdleIsSound(fs: seq<Factor>, g: nat, backends: seq<Backend>, order: seq<Scored>,
      ticket: nat)
    requires Gated(fs, g) && GatesEvict(fs, g, backends) && Ranks(fs, backends, order) && |backends| > 0
    requires Routeable(fs, order[0].ctx)
    ensures var kept := Kept(fs, order);
            var at := Draw(kept, ticket);
            && at < |order| && Routeable(fs, order[at].ctx)
            && !Drained(fs, order[at].ctx, order[0].ctx)
  {
    RankedAreInputs(fs, backends, order);
    var kept := Kept(fs, order);
    var at := Draw(kept, ticket);
    IdleAboveMembers(fs, order, 0, at);
    if at != 0 {
      KeptIsRouteable(fs, g, backends, order[at].ctx, order[0].ctx);
      if Drained(fs, order[at].ctx, order[0].ctx) {
        DrainedIsEvicted(fs, order[at].ctx, order[0].ctx);
      }
    }
  }

  /** For an arbitrary factor list, random routing answers with a routeable backend for every
      ticket if and only if a single routeable backend ranks first. */
  lemma {:induction false} RandomSoundIff(fs: seq<Factor>, order: seq<Scored>)
    requires |order| > 0
    ensures var open := Open(fs, order, |order|);
            (forall ticket: nat :: |open| > 0 ==>
               var at := if |open| == 1 then 0 else DrawFavouring(open, ticket);
               at < |order| && Routeable(fs, order[at].ctx))
            <==> (|open| == 1 ==> Routeable(fs, order[0].ctx))
  {
    var open := Open(fs, order, |order|);
    if |open| > 1 {
      forall ticket: nat ensures var at := DrawFavouring(open, ticket); at < |order| && Routeable(fs, order[at].ctx) {
        OpenAreRouteable(fs, order, |order|, DrawFavouring(open, ticket));
      }
    } else if |open| == 1 {
      assert DrawFavouring(open, 0) in open;
    }
  }
}
