/** Which migration the factor-based policy chooses. */
module FactorBalance {
  import opened Common
  import opened ScoreBits
  import opened FactorScores

  predicate Routeable(fs: seq<Factor>, b: Backend) {
    forall k :: 0 <= k < |fs| ==> fs[k].canRoute(Rated(fs[k], b))
  }

  /** Factor k wants to drain `from`: it is busier by this factor, and the advice is positive. */
  predicate Wants(fs: seq<Factor>, from: Backend, to: Backend, k: nat)
    requires k < |fs|
  {
    && Rated(fs[k], from) > Rated(fs[k], to)
    && fs[k].advise(from, to).0 == Positive && fs[k].advise(from, to).1 > MIN_COUNT
  }

  /** Factor k does not object: not in the opposite order, no negative advice. */
  predicate Tolerates(fs: seq<Factor>, from: Backend, to: Backend, k: nat)
    requires k < |fs|
  {
    Rated(fs[k], from) >= Rated(fs[k], to) && fs[k].advise(from, to).0 != Negative
  }

  predicate Drains(fs: seq<Factor>, from: Backend, to: Backend, k: nat)
    requires k < |fs|
  {
    Wants(fs, from, to, k) && forall e :: 0 <= e < k ==> Tolerates(fs, from, to, e)
  }

  predicate Drained(fs: seq<Factor>, from: Backend, to: Backend) {
    from.connCount > 0 && from.connScore > 0 && exists k :: 0 <= k < |fs| && Drains(fs, from, to, k)
  }

  datatype Migration = Migration(from: Backend, to: Backend, count: real, factor: nat)

  method CanBeRouted(fs: seq<Factor>, scored: Scored) returns (ok: bool)
    requires TotalWidth(fs) <= MAX_BIT_NUM && scored.bits == Bits(fs, scored.ctx)
    ensures ok <==> Routeable(fs, scored.ctx)
  {
    var left := TotalWidth(fs);
    assert fs[0..] == fs;
    for k := 0 to |fs|
      invariant left == TotalWidth(fs[k..])
      invariant forall e :: 0 <= e < k ==> fs[e].canRoute(Rated(fs[e], scored.ctx))
    {
      ReadsBack(fs, scored.ctx, k);
      WidthFrom(fs, k);
      if !fs[k].canRoute(Extract(scored.bits, left, fs[k].width)) {
        return false;
      }
      left := left - fs[k].width;
    }
    ok := true;
  }

  /** Weighs one backend against the idlest one: the first factor that drains it, if any. */
  method Weigh(fs: seq<Factor>, from: Scored, to: Scored) returns (hit: Option<nat>)
    requires TotalWidth(fs) <= MAX_BIT_NUM && from.bits == Bits(fs, from.ctx) && to.bits == Bits(fs, to.ctx)
    ensures hit.None? ==> forall k :: 0 <= k < |fs| ==> !Drains(fs, from.ctx, to.ctx, k)
    ensures hit.Some? ==> hit.value < |fs| && Drains(fs, from.ctx, to.ctx, hit.value)
    ensures hit.Some? ==> forall k :: 0 <= k < hit.value ==> !Drains(fs, from.ctx, to.ctx, k)
  {
    var left := TotalWidth(fs);
    assert fs[0..] == fs;
    for k := 0 to |fs|
      invariant left == TotalWidth(fs[k..])
      invariant forall e :: 0 <= e < k ==> Tolerates(fs, from.ctx, to.ctx, e) && !Wants(fs, from.ctx, to.ctx, e)
    {
      ReadsBack(fs, from.ctx, k);
      ReadsBack(fs, to.ctx, k);
      WidthFrom(fs, k);
      var score1 := Extract(from.bits, left, fs[k].width);
      var score2 := Extract(to.bits, left, fs[k].width);
      if score1 >= score2 {
        var (advice, count) := fs[k].advise(from.ctx, to.ctx);
        if advice == Negative {
          ObjectionEndsIt(fs, from.ctx, to.ctx, k);
          return None;
        }
        if score1 > score2 && advice == Positive && count > MIN_COUNT {
          return Some(k);
        }
      } else {
        ObjectionEndsIt(fs, from.ctx, to.ctx, k);
        return None;
      }
      left := left - fs[k].width;
    }
    hit := None;
  }

  /** A factor that objects ends the search. */
  lemma {:induction false} ObjectionEndsIt(fs: seq<Factor>, from: Backend, to: Backend, k: nat)
    requires k < |fs| && !Tolerates(fs, from, to, k)
    requires forall e :: 0 <= e < k ==> !Wants(fs, from, to, e)
    ensures forall e :: 0 <= e < |fs| ==> !Drains(fs, from, to, e)
  {
  }

  /** With one packed score all over, nothing is drained. */
  lemma {:induction false} FlatIsBalanced(fs: seq<Factor>, order: seq<Scored>, i: nat)
    requires TotalWidth(fs) <= MAX_BIT_NUM && Ordered(order) && Carries(fs, order) && i < |order|
    requires order[0].bits == order[|order| - 1].bits
    ensures !Drained(fs, order[i].ctx, order[0].ctx)
  {
    assert order[0].bits <= order[i].bits <= order[|order| - 1].bits;
    BitsMeanPriority(fs, order[0].ctx, order[i].ctx);
    assert SameScores(fs, order[0].ctx, order[i].ctx);
  }

  /** The migration starts at the highest-ranked backend that is drained, and goes to the
      idlest; its factor is the first one that drains, with the count that factor advises. */
  predicate Chosen(fs: seq<Factor>, order: seq<Scored>, m: Migration, i: nat)
    requires i < |order|
  {
    && m.from == order[i].ctx && m.to == order[0].ctx
    && Drained(fs, m.from, m.to)
    && (forall j :: i < j < |order| ==> !Drained(fs, order[j].ctx, m.to))
    && m.factor < |fs| && Drains(fs, m.from, m.to, m.factor) && m.count == fs[m.factor].advise(m.from, m.to).1
    && forall k :: 0 <= k < m.factor ==> !Drains(fs, m.from, m.to, k)
  }

  /** A migration is chosen if and only if the idlest backend is routeable and some other
      backend is drained toward it. */
  method BackendsToBalance(fs: seq<Factor>, backends: seq<Backend>) returns (m: Option<Migration>, order: seq<Scored>)
    requires TotalWidth(fs) <= MAX_BIT_NUM
    ensures Ranks(fs, backends, order)
    ensures m.Some? <==>
               && |backends| > 0 && Routeable(fs, order[0].ctx)
               && exists i :: 0 < i < |order| && Drained(fs, order[i].ctx, order[0].ctx)
    ensures m.Some? ==> exists i :: 0 < i < |order| && Chosen(fs, order, m.value, i)
  {
    order := UpdateScore(fs, backends);
    m := None;
    if |backends| <= 1 {
      return;
    }
    var ok := CanBeRouted(fs, order[0]);
    if !ok {
      return;
    }
    if order[0].bits == order[|order| - 1].bits {
      forall i | 0 < i < |order| ensures !Drained(fs, order[i].ctx, order[0].ctx) {
        FlatIsBalanced(fs, order, i);
      }
      return;
    }
    var i := |order| - 1;
    while i > 0
      invariant 0 <= i < |order|
      invariant forall j :: i < j < |order| ==> !Drained(fs, order[j].ctx, order[0].ctx)
    {
      if order[i].ctx.connCount > 0 && order[i].ctx.connScore > 0 {
        var hit := Weigh(fs, order[i], order[0]);
        if hit.Some? {
          var speed := fs[hit.value].advise(order[i].ctx, order[0].ctx).1;
          m := Some(Migration(order[i].ctx, order[0].ctx, speed, hit.value));
          assert Chosen(fs, order, m.value, i);
          return;
        }
      }
      i := i - 1;
    }
  }

  /** Migrations go downhill in priority order, from strictly busier to strictly idler. */
  lemma {:induction false} MigrationIsDownhill(fs: seq<Factor>, from: Backend, to: Backend)
    requires TotalWidth(fs) <= MAX_BIT_NUM && Drained(fs, from, to)
    ensures Bits(fs, to) < Bits(fs, from) && !Drained(fs, to, from)
  {
    DrainIsDownhill(fs, from, to);
    if Drained(fs, to, from) {
      DrainIsDownhill(fs, to, from);
    }
  }

  lemma {:induction false} DrainIsDownhill(fs: seq<Factor>, from: Backend, to: Backend)
    requires TotalWidth(fs) <= MAX_BIT_NUM && Drained(fs, from, to)
    ensures Bits(fs, to) < Bits(fs, from)
  {
    var k :| 0 <= k < |fs| && Drains(fs, from, to, k);
    forall e | 0 <= e < k ensures Rated(fs[e], to) <= Rated(fs[e], from) {
      assert Tolerates(fs, from, to, e);
    }
    DominatedIsBelow(fs, to, from, k);
    BitsMeanPriority(fs, to, from);
  }

  lemma {:induction false} DominatedIsBelow(fs: seq<Factor>, a: Backend, b: Backend, k: nat)
    requires k < |fs| && Rated(fs[k], a) < Rated(fs[k], b)
    requires forall e :: 0 <= e < k ==> Rated(fs[e], a) <= Rated(fs[e], b)
    ensures Below(fs, a, b)
    decreases k
  {
    var x, y := Scores(Fields(fs, a)), Scores(Fields(fs, b));
    assert x[0] == Rated(fs[0], a) && y[0] == Rated(fs[0], b);
    if k > 0 && x[0] == y[0] {
      DominatedIsBelow(fs[1..], a, b, k - 1);
      assert x[1..] == Scores(Fields(fs[1..], a)) && y[1..] == Scores(Fields(fs[1..], b));
    }
  }

  // --------------------------------------------------------- who has the say

  /** A backend with connections is drained if some factor finds it busier and advises so, and the
      factors before it find no difference and do not mind. */
  lemma {:induction false} AdviceIsFollowed(fs: seq<Factor>, from: Backend, to: Backend, k: nat)
    requires from.connCount > 0 && from.connScore > 0 && k < |fs|
    requires Rated(fs[k], from) > Rated(fs[k], to)
    requires fs[k].advise(from, to).0 == Positive && fs[k].advise(from, to).1 > MIN_COUNT
    requires forall e :: 0 <= e < k ==>
               Rated(fs[e], from) == Rated(fs[e], to) && fs[e].advise(from, to).0 != Negative
    ensures Drained(fs, from, to)
  {
    assert Drains(fs, from, to, k);
  }

  /** It is not drained if a factor objects or ranks it lower, and no factor before that one ranks it
      higher. */
  lemma {:induction false} ObjectionIsHeard(fs: seq<Factor>, from: Backend, to: Backend, k: nat)
    requires k < |fs|
    requires fs[k].advise(from, to).0 == Negative || Rated(fs[k], from) < Rated(fs[k], to)
    requires forall e :: 0 <= e < k ==> Rated(fs[e], from) <= Rated(fs[e], to)
    ensures !Drained(fs, from, to)
  {
    ObjectionEndsIt(fs, from, to, k);
  }

  /** Nothing is drained on advice that is not positive, and no backend without connections. */
  lemma {:induction false} NoAdviceNoDrain(fs: seq<Factor>, from: Backend, to: Backend)
    requires from.connCount <= 0 || from.connScore <= 0 || forall k :: 0 <= k < |fs| ==>
               fs[k].advise(from, to).0 != Positive || fs[k].advise(from, to).1 <= MIN_COUNT
                 || Rated(fs[k], from) <= Rated(fs[k], to)
    ensures !Drained(fs, from, to)
  {
  }
}
