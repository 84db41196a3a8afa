/** What the configured factors put first: the packed words of a configured list say who is ahead of
    whom, score by score. */
module FactorPriority {
  import opened Common
  import opened ScoreBits
  import opened FactorScores
  import opened FactorBalance
  import opened FactorRouting
  import opened FactorList

  /** 1 if the proxy and the configuration name a label value that the backend does not carry. */
  function LabelScore(c: Config, b: Backend): nat {
    if c.labelName == "" || c.selfLabel == "" || SameLabel(b, c.labelName, c.selfLabel) then 0 else 1
  }

  function StatusScore(b: Backend): nat {
    if b.healthy then 0 else 1
  }

  /** The scores of a backend, the most important first: label and health status, then what the
      policy looks at, and connections last. */
  function Standing(c: Config, b: Backend): seq<nat> {
    [LabelScore(c, b), StatusScore(b)]
      + match c.policy
        case Resource =>
          [Rated(c.health, b), Rated(c.memory, b), Rated(c.cpu, b), Rated(c.location, b), Rated(c.conn, b)]
        case Location =>
          [Rated(c.location, b), Rated(c.health, b), Rated(c.memory, b), Rated(c.cpu, b), Rated(c.conn, b)]
        case Connection => [Rated(c.conn, b)]
  }

  /** The first score that differs is smaller. */
  predicate Ahead(x: seq<nat>, y: seq<nat>)
    requires |x| == |y|
  {
    exists k :: 0 <= k < |x| && x[k] < y[k] && forall e :: 0 <= e < k ==> x[e] == y[e]
  }

  lemma {:induction false} LexIsAhead(x: seq<nat>, y: seq<nat>)
    requires |x| == |y|
    ensures LexLess(x, y) <==> Ahead(x, y)
    decreases |x|
  {
    if x != [] {
      var u, v := x[1..], y[1..];
      LexIsAhead(u, v);
      if x[0] == y[0] && Ahead(u, v) {
        var k :| 0 <= k < |u| && u[k] < v[k] && forall e :: 0 <= e < k ==> u[e] == v[e];
        assert x[k + 1] < y[k + 1] && forall e :: 0 <= e < k + 1 ==> x[e] == y[e] by {
          forall e | 0 <= e < k + 1
            ensures x[e] == y[e]
          {
            assert e > 0 ==> u[e - 1] == v[e - 1];
          }
        }
      }
      if Ahead(x, y) {
        var k :| 0 <= k < |x| && x[k] < y[k] && forall e :: 0 <= e < k ==> x[e] == y[e];
        if k > 0 {
          assert u[k - 1] < v[k - 1] && forall e :: 0 <= e < k - 1 ==> u[e] == v[e];
        }
      }
    }
  }

  /** An equal first score decides nothing. */
  lemma {:induction false} LexSameHead(n: nat, x: seq<nat>, y: seq<nat>)
    requires |x| == |y|
    ensures LexLess([n] + x, [n] + y) <==> LexLess(x, y)
    ensures [n] + x == [n] + y <==> x == y
  {
    assert ([n] + x)[1..] == x && ([n] + y)[1..] == y;
  }

  lemma {:induction false} PaddingDecidesNothing(padded: bool, x: seq<nat>, y: seq<nat>, u: seq<nat>, v: seq<nat>)
    requires |x| == |y| && u == (if padded then [0] else []) + x && v == (if padded then [0] else []) + y
    ensures |u| == |v| && (Ahead(u, v) <==> LexLess(x, y)) && (u == v <==> x == y)
  {
    hide Ahead, LexLess;
    LexIsAhead(u, v);
    LexSameHead(0, x, y);
    assert !padded ==> u == x && v == y;
  }

  lemma {:induction false} GateScores(c: Config, b: Backend)
    ensures Rated(StatusFactor(c.statusPerSecond, c.sticky), b) == StatusScore(b)
    ensures c.labelName != "" ==> Rated(LabelFactor(c.labelName, c.selfLabel), b) == LabelScore(c, b)
  {
    assert Pow2(1) == 2;
    assert ClampScore(1, 1) == 1 && ClampScore(0, 1) == 0;
  }

  function Ratings(fs: seq<Factor>, b: Backend): seq<nat> {
    Scores(Fields(fs, b))
  }

  lemma {:induction false} RatingsConcat(fs: seq<Factor>, gs: seq<Factor>, b: Backend)
    ensures Ratings(fs + gs, b) == Ratings(fs, b) + Ratings(gs, b)
  {
    hide Rated;
  }

  lemma {:induction false} RatingsOfOne(f: Factor, b: Backend)
    ensures Ratings([f], b) == [Rated(f, b)]
  {
    hide Rated;
  }

  lemma {:induction false} RatingsOfFour(f: Factor, g: Factor, h: Factor, i: Factor, b: Backend)
    ensures Ratings([f, g, h, i], b) == [Rated(f, b), Rated(g, b), Rated(h, b), Rated(i, b)]
  {
    hide Rated;
  }

  lemma {:induction false} PolicyRatings(c: Config, b: Backend)
    ensures Ratings(PolicyPart(c), b) + [Rated(c.conn, b)] == Standing(c, b)[2..]
  {
    hide Rated, Ratings;
    match c.policy {
      case Resource => RatingsOfFour(c.health, c.memory, c.cpu, c.location, b);
      case Location => RatingsOfFour(c.location, c.health, c.memory, c.cpu, b);
      case Connection => NoRatings(b);
    }
  }

  lemma {:induction false} NoRatings(b: Backend)
    ensures Ratings([], b) == []
  {
  }

  /** The scores that are packed are the standing, which without a label starts with a zero. */
  lemma {:induction false} ScoresAreStanding(c: Config, b: Backend)
    ensures Standing(c, b) == (if c.labelName == "" then [0] else []) + Ratings(SetFactors(c), b)
  {
    hide Rated, Ratings, PolicyPart, StatusFactor, LabelFactor;
    var status := StatusFactor(c.statusPerSecond, c.sticky);
    RatingsConcat(LabelPart(c) + [status] + PolicyPart(c), [c.conn], b);
    RatingsConcat(LabelPart(c) + [status], PolicyPart(c), b);
    RatingsConcat(LabelPart(c), [status], b);
    RatingsOfOne(status, b);
    RatingsOfOne(c.conn, b);
    RatingsOfOne(LabelFactor(c.labelName, c.selfLabel), b);
    NoRatings(b);
    GateScores(c, b);
    PolicyRatings(c, b);
    StandingParts(c, b);
    assert Standing(c, b) == [LabelScore(c, b)] + [StatusScore(b)] + (Ratings(PolicyPart(c), b) + [Rated(c.conn, b)]);
  }

  lemma {:induction false} StandingParts(c: Config, b: Backend)
    ensures |Standing(c, b)| > 2 && Standing(c, b) == [LabelScore(c, b)] + [StatusScore(b)] + Standing(c, b)[2..]
  {
    hide Rated;
  }

  lemma {:induction false} SameScoresMean(fs: seq<Factor>, a: Backend, b: Backend)
    ensures SameScores(fs, a, b) <==> Scores(Fields(fs, a)) == Scores(Fields(fs, b))
    ensures |Scores(Fields(fs, a))| == |fs|
  {
    hide Rated;
    var x, y := Scores(Fields(fs, a)), Scores(Fields(fs, b));
    assert forall k :: 0 <= k < |fs| ==> x[k] == Rated(fs[k], a) && y[k] == Rated(fs[k], b);
  }

  /** For every configuration: one word is below another if and only if its backend is ahead, and
      words are equal if and only if all scores are. */
  lemma {:induction false} WordsMeanStanding(c: Config, a: Backend, b: Backend)
    requires ValidConfig(c)
    ensures |Standing(c, a)| == |Standing(c, b)|
    ensures Bits(SetFactors(c), a) < Bits(SetFactors(c), b) <==> Ahead(Standing(c, a), Standing(c, b))
    ensures Bits(SetFactors(c), a) == Bits(SetFactors(c), b) <==> Standing(c, a) == Standing(c, b)
  {
    hide SetFactors, Standing, Rated, Ahead, Bits, Fields, SameScores, TotalWidth, Scores, LexLess, ValidConfig;
    var fs := SetFactors(c);
    ListFits(c);
    BitsMeanPriority(fs, a, b);
    ScoresAreStanding(c, a);
    ScoresAreStanding(c, b);
    SameScoresMean(fs, a, b);
    SameScoresMean(fs, b, a);
    PaddingDecidesNothing(c.labelName == "", Ratings(fs, a), Ratings(fs, b), Standing(c, a), Standing(c, b));
  }

  /** A configured migration goes to a backend that is ahead. */
  lemma {:induction false} MigrationGoesAhead(c: Config, from: Backend, to: Backend)
    requires ValidConfig(c) && Drained(SetFactors(c), from, to)
    ensures |Standing(c, to)| == |Standing(c, from)| && Ahead(Standing(c, to), Standing(c, from))
  {
    ListFits(c);
    MigrationIsDownhill(SetFactors(c), from, to);
    WordsMeanStanding(c, to, from);
  }

  /** No suitable backend is ahead of this one. */
  predicate Foremost(c: Config, backends: seq<Backend>, r: Backend) {
    forall b :: b in backends && Suits(c, b) ==>
      |Standing(c, b)| == |Standing(c, r)| && !Ahead(Standing(c, b), Standing(c, r))
  }

  /** For healthy backends and any configuration, routing finds one that carries the label if there
      is one, and never gives another. The idlest policy gives one that no other is ahead of. */
  method Route(c: Config, backends: seq<Backend>, policy: RoutePolicy, ticket: nat)
      returns (r: Option<Backend>, order: seq<Scored>)
    requires ValidConfig(c) && forall b :: b in backends ==> b.healthy
    ensures Ranks(SetFactors(c), backends, order)
    ensures r.Some? <==> exists b :: b in backends && Suits(c, b)
    ensures r.Some? ==> r.value in backends && Suits(c, r.value)
    ensures r.Some? && policy == Idlest ==> Foremost(c, backends, r.value)
    ensures r.Some? && policy == PreferIdle ==> !Drained(SetFactors(c), r.value, order[0].ctx)
  {
    hide SetFactors, Standing, Ahead, Suits;
    ListFits(c);
    GatesComeFirst(c);
    GatesEvictHealthy(c, backends);
    r, order := BackendToRoute(SetFactors(c), backends, policy, ticket, Gates(c));
    forall b | b in backends ensures Routeable(SetFactors(c), b) <==> Suits(c, b) {
      RouteableMeansSuits(c, b);
    }
    if r.Some? && policy == Idlest {
      forall b | b in backends && Suits(c, b)
        ensures |Standing(c, b)| == |Standing(c, r.value)| && !Ahead(Standing(c, b), Standing(c, r.value))
      {
        WordsMeanStanding(c, b, r.value);
      }
    }
  }

  // ----------------------------------------------------- connections alone

  lemma {:induction false} ConnRating(ratio: real, perSecond: real, b: Backend)
    requires ratio > 1.0 && 0 <= b.connScore <= 65535
    ensures Rated(ConnFactor(ratio, perSecond), b) == b.connScore
  {
    Pow2Square(8, 0x100);
    ShiftedOneIsPower(CONN_BITS);
  }

  /** Two healthy backends that carry the label alike, on a list that looks at connections alone. */
  ghost predicate Comparable(c: Config, ratio: real, perSecond: real, from: Backend, to: Backend) {
    && ratio > 1.0 && perSecond > MIN_COUNT
    && c.policy == Connection && c.conn == ConnFactor(ratio, perSecond)
    && from.healthy && to.healthy && LabelScore(c, from) == LabelScore(c, to)
    && 0 <= from.connScore <= 65535 && 0 <= to.connScore <= 65535
  }

  lemma {:induction false} OnlyConnectionsDiffer(c: Config, ratio: real, perSecond: real, from: Backend, to: Backend)
    requires Comparable(c, ratio, perSecond, from, to)
    ensures var fs := SetFactors(c);
            && |fs| == Gates(c) + 1 && fs[Gates(c)] == c.conn
            && (forall k :: 0 <= k < Gates(c) ==>
                  Rated(fs[k], from) == Rated(fs[k], to) && fs[k].advise(from, to).0 == Positive)
            && Rated(c.conn, from) == from.connScore && Rated(c.conn, to) == to.connScore
  {
    GateScores(c, from);
    GateScores(c, to);
    ConnRating(ratio, perSecond, from);
    ConnRating(ratio, perSecond, to);
    hide Rated;
    var fs := SetFactors(c);
    assert fs[Gates(c) - 1] == StatusFactor(c.statusPerSecond, c.sticky);
    assert Gates(c) == 2 ==> fs[0] == LabelFactor(c.labelName, c.selfLabel);
  }

  lemma {:induction false} ApartIsMore(ratio: real, from: int, to: int)
    requires ratio > 1.0 && to >= 0 && Apart(ratio, from, to)
    ensures from > to
  {
    Stretch((to + 1) as real, ratio);
  }

  /** Balanced by connections alone: one backend is drained toward another if and only if it has
      connections and more than the ratio of the other's, and for the same reason it gets no new
      ones from prefer-idle. */
  lemma {:induction false} ConnectionsDecide(c: Config, ratio: real, perSecond: real, from: Backend, to: Backend)
    requires Comparable(c, ratio, perSecond, from, to)
    ensures Drained(SetFactors(c), from, to) <==> from.connCount > 0 && Apart(ratio, from.connScore, to.connScore)
    ensures Evicted(SetFactors(c), from, to) <==> Apart(ratio, from.connScore, to.connScore)
  {
    var fs, g := SetFactors(c), Gates(c);
    OnlyConnectionsDiffer(c, ratio, perSecond, from, to);
    AdviceMeansApart(ratio, perSecond, from.connScore, to.connScore);
    assert fs[g].advise(from, to) == ConnAdvice(ratio, perSecond, from.connScore, to.connScore);
    hide SetFactors, Rated, ConnFactor, Comparable, Gates, LabelScore;
    if Apart(ratio, from.connScore, to.connScore) {
      ApartIsMore(ratio, from.connScore, to.connScore);
      WantedIsEvicted(fs, from, to, 0, g, 0.0);
      if from.connCount > 0 {
        AdviceIsFollowed(fs, from, to, g);
      } else {
        NoAdviceNoDrain(fs, from, to);
      }
    } else {
      NoAdviceNoDrain(fs, from, to);
      NotApartIsKept(fs, from, to, 0, g);
    }
  }

  /** The speed without a configured one: after two minutes of it, the source has the ratio of what the
      target then has, counting the one connection of slack. */
  lemma {:induction false} ConnSpeedMeetsRatio(ratio: real, perSecond: real, from: int, to: int)
    requires ratio > 1.0 && perSecond <= 0.0 && Apart(ratio, from, to)
    ensures var moved := ConnAdvice(ratio, perSecond, from, to).1 * CONN_SECONDS;
            moved > 0.0 && from as real - moved == ratio * ((to + 1) as real + moved)
  {
    var x, y := from as real, (to + 1) as real;
    var target := (x + y) / (1.0 + ratio);
    assert (from + to + 1) as real == x + y;
    TargetSplits(x, y, ratio, target);
  }

  lemma {:induction false} TargetSplits(x: real, y: real, ratio: real, target: real)
    requires ratio > 1.0 && x > y * ratio && target == (x + y) / (1.0 + ratio)
    ensures target > y && x + y - target == ratio * target
  {
    assert target * (1.0 + ratio) == x + y;
    assert target * (1.0 + ratio) == target + ratio * target;
    assert y * (1.0 + ratio) == y + y * ratio;
    if target <= y {
      ScaleDown(target, y, 1.0 + ratio);
    }
  }

  lemma {:induction false} ScaleDown(a: real, b: real, k: real)
    requires a <= b && k > 0.0
    ensures a * k <= b * k
  {
  }

  lemma {:induction false} NotApartIsKept(fs: seq<Factor>, from: Backend, to: Backend, k: nat, g: nat)
    requires k <= g && |fs| == g + 1 && fs[g].advise(from, to) == (Neutral, 0.0)
    requires forall e :: 0 <= e < g ==> Rated(fs[e], from) == Rated(fs[e], to)
    ensures LastCount(fs, from, to, k, 0.0) == 0.0
    decreases g - k
  {
    hide Rated;
    if k < g {
      NotApartIsKept(fs, from, to, k + 1, g);
    } else {
      assert LastCount(fs, from, to, g + 1, 0.0) == 0.0;
    }
  }

  /** What is unhealthy is drained toward what is healthy, and what lacks the label toward what
      carries it, whatever the other factors say. */
  lemma {:induction false} GatesDecide(c: Config, from: Backend, to: Backend)
    requires from.connCount > 0 && from.connScore > 0
    ensures c.labelName != "" && LabelScore(c, from) > LabelScore(c, to) ==> Drained(SetFactors(c), from, to)
    ensures LabelScore(c, from) == LabelScore(c, to) && !from.healthy && to.healthy && c.statusPerSecond > MIN_COUNT ==>
              Drained(SetFactors(c), from, to)
  {
    var fs, g := SetFactors(c), Gates(c);
    GateScores(c, from);
    GateScores(c, to);
    hide Rated, Drained;
    assert fs[g - 1] == StatusFactor(c.statusPerSecond, c.sticky);
    assert g == 2 ==> fs[0] == LabelFactor(c.labelName, c.selfLabel);
    if c.labelName != "" && LabelScore(c, from) > LabelScore(c, to) {
      AdviceIsFollowed(fs, from, to, 0);
    }
    if LabelScore(c, from) == LabelScore(c, to) && !from.healthy && to.healthy && c.statusPerSecond > MIN_COUNT {
      AdviceIsFollowed(fs, from, to, g - 1);
    }
  }
}
