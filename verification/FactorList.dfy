/** The factor lists that the policy builds from its configuration. */
module FactorList {
  import opened Common
  import opened ScoreBits
  import opened FactorScores
  import opened FactorBalance
  import opened FactorRouting

  const LABEL_COUNT: real := 1.0
  const CONN_SECONDS: real := 120.0
  const CONN_BITS: nat := 16

  datatype BalancePolicy = Resource | Location | Connection

  /** The backend carries this proxy's label value. */
  predicate SameLabel(b: Backend, name: string, self: string) {
    name in b.labels && b.labels[name] == self
  }

  function LabelFactor(name: string, self: string): Factor {
    Factor(1,
           (b: Backend) =>
             if name == "" || self == "" then None else if SameLabel(b, name, self) then Some(0) else Some(1),
           (score: nat) => score == 0,
           (from: Backend, to: Backend) => (Positive, LABEL_COUNT))
  }

  /** `sticky` is the count remembered for each unhealthy backend. */
  function StatusFactor(perSecond: real, sticky: string -> real): Factor {
    Factor(1,
           (b: Backend) => if b.healthy then Some(0) else Some(1),
           (score: nat) => score == 0,
           (from: Backend, to: Backend) => (Positive, if perSecond > 0.0 then perSecond else sticky(from.id)))
  }

  function ConnAdvice(ratio: real, perSecond: real, from: int, to: int): (Advice, real)
    requires ratio > 1.0
  {
    if from as real <= (to + 1) as real * ratio then (Neutral, 0.0)
    else if perSecond > 0.0 then (Positive, perSecond)
    else
      var target := (from + to + 1) as real / (1.0 + ratio);
      var count := (target - (to + 1) as real) / CONN_SECONDS;
      (Positive, if count < 0.0 then 0.0 else count)
  }

  function ConnFactor(ratio: real, perSecond: real): Factor
    requires ratio > 1.0
  {
    Factor(CONN_BITS,
           (b: Backend) => Some(Max(0, Min(b.connScore, 65535))),
           (score: nat) => true,
           (from: Backend, to: Backend) => ConnAdvice(ratio, perSecond, from.connScore, to.connScore))
  }

  /** A factor of this width that never shuts a backend out. */
  ghost predicate LetsAllIn(f: Factor, width: nat) {
    f.width == width && forall s: nat :: f.canRoute(s)
  }

  /** The configuration: label, policy and status settings, and the remaining factors. */
  datatype Config = Config(
    labelName: string, selfLabel: string, policy: BalancePolicy, statusPerSecond: real, sticky: string -> real,
    health: Factor, memory: Factor, cpu: Factor, location: Factor, conn: Factor)

  ghost predicate ValidConfig(c: Config) {
    && LetsAllIn(c.health, 2) && LetsAllIn(c.memory, 2) && LetsAllIn(c.cpu, 5)
    && LetsAllIn(c.location, 1) && LetsAllIn(c.conn, CONN_BITS)
  }

  function LabelPart(c: Config): seq<Factor> {
    if c.labelName != "" then [LabelFactor(c.labelName, c.selfLabel)] else []
  }

  function PolicyPart(c: Config): seq<Factor> {
    match c.policy
    case Resource => [c.health, c.memory, c.cpu, c.location]
    case Location => [c.location, c.health, c.memory, c.cpu]
    case Connection => []
  }

  /** The factors in force, by priority. */
  function SetFactors(c: Config): seq<Factor> {
    LabelPart(c) + [StatusFactor(c.statusPerSecond, c.sticky)] + PolicyPart(c) + [c.conn]
  }

  function Gates(c: Config): nat {
    |LabelPart(c)| + 1
  }

  lemma {:induction false} WidthConcatenates(a: seq<Factor>, b: seq<Factor>)
    ensures TotalWidth(a + b) == TotalWidth(a) + TotalWidth(b)
  {
    assert (a + b)[..|a|] == a && (a + b)[|a|..] == b;
    WidthSplits(a + b, |a|);
  }

  lemma {:induction false} WidthOfFour(fs: seq<Factor>)
    requires |fs| == 4
    ensures TotalWidth(fs) == fs[0].width + fs[1].width + fs[2].width + fs[3].width
  {
    WidthFrom(fs, 0);
    WidthFrom(fs, 1);
    WidthFrom(fs, 2);
    WidthFrom(fs, 3);
    assert fs[0..] == fs;
  }

  /** Every configuration fits in the word. */
  lemma {:induction false} ListFits(c: Config)
    requires ValidConfig(c)
    ensures TotalWidth(SetFactors(c)) <= MAX_BIT_NUM
  {
    var status := [StatusFactor(c.statusPerSecond, c.sticky)];
    WidthConcatenates(LabelPart(c) + status + PolicyPart(c), [c.conn]);
    WidthConcatenates(LabelPart(c) + status, PolicyPart(c));
    WidthConcatenates(LabelPart(c), status);
    if c.policy != Connection {
      WidthOfFour(PolicyPart(c));
    }
  }

  lemma {:induction false} OthersLetIn(c: Config, k: nat, s: nat)
    requires ValidConfig(c) && Gates(c) <= k < |SetFactors(c)|
    ensures SetFactors(c)[k].canRoute(s)
  {
    assert SetFactors(c)[k] in {c.health, c.memory, c.cpu, c.location, c.conn};
  }

  /** The label and the status are the gates, and they come first. */
  lemma {:induction false} GatesComeFirst(c: Config)
    requires ValidConfig(c)
    ensures Gated(SetFactors(c), Gates(c))
  {
    forall k, s: nat | Gates(c) <= k < |SetFactors(c)| ensures SetFactors(c)[k].canRoute(s) {
      OthersLetIn(c, k, s);
    }
  }

  /** Among healthy backends, a gate that separates two of them evicts the one it shuts out. */
  lemma {:induction false} GatesEvictHealthy(c: Config, backends: seq<Backend>)
    requires forall b :: b in backends ==> b.healthy
    ensures GatesEvict(SetFactors(c), Gates(c), backends)
  {
    var fs := SetFactors(c);
    assert forall a :: a in backends ==> Rated(StatusFactor(c.statusPerSecond, c.sticky), a) == 0;
    forall k, a, b | 0 <= k < Gates(c) && a in backends && b in backends && Rated(fs[k], a) > Rated(fs[k], b)
      ensures Wants(fs, a, b, k)
    {
      assert fs[k] == LabelFactor(c.labelName, c.selfLabel);
    }
  }

  /** A backend that new connections may go to. */
  predicate Suits(c: Config, b: Backend) {
    b.healthy && (c.labelName == "" || c.selfLabel == "" || SameLabel(b, c.labelName, c.selfLabel))
  }

  /** What passes the gates is what is healthy and carries the proxy's label. */
  lemma {:induction false} RouteableMeansSuits(c: Config, b: Backend)
    requires ValidConfig(c)
    ensures Routeable(SetFactors(c), b) <==> Suits(c, b)
  {
    var fs, g := SetFactors(c), Gates(c);
    GatesComeFirst(c);
    assert fs[g - 1] == StatusFactor(c.statusPerSecond, c.sticky);
    assert Rated(fs[g - 1], b) == (if b.healthy then 0 else ClampScore(1, 1));
    assert ClampScore(1, 1) == 1 && ClampScore(0, 1) == 0 by {
      assert Pow2(1) == 2;
    }
    if c.labelName != "" {
      assert fs[0] == LabelFactor(c.labelName, c.selfLabel);
    }
    if Suits(c, b) {
      forall k | 0 <= k < |fs| ensures fs[k].canRoute(Rated(fs[k], b)) {
        if k >= g {
          OthersLetIn(c, k, Rated(fs[k], b));
        }
      }
    } else {
      var k := if b.healthy then 0 else g - 1;
      assert !fs[k].canRoute(Rated(fs[k], b));
    }
  }

  /** Connection counts are apart by more than the ratio. */
  predicate Apart(ratio: real, from: int, to: int) {
    from as real > (to + 1) as real * ratio
  }

  lemma {:induction false} AdviceMeansApart(ratio: real, perSecond: real, from: int, to: int)
    requires ratio > 1.0
    ensures ConnAdvice(ratio, perSecond, from, to).0 == if Apart(ratio, from, to) then Positive else Neutral
  {
  }

  lemma {:induction false} Stretch(x: real, ratio: real)
    requires ratio > 1.0 && x >= 0.0
    ensures x * ratio >= x
  {
  }

  /** After one connection moved on positive advice, the advice is not to move it back. */
  lemma {:induction false} ConnDoesNotPingPong(ratio: real, perSecond: real, from: int, to: int)
    requires ratio > 1.0 && to >= 0 && ConnAdvice(ratio, perSecond, from, to).0 == Positive
    ensures ConnAdvice(ratio, perSecond, to + 1, from - 1).0 == Neutral
  {
    AdviceMeansApart(ratio, perSecond, from, to);
    AdviceMeansApart(ratio, perSecond, to + 1, from - 1);
    ApartOneWay(ratio, from, to);
  }

  lemma {:induction false} ApartOneWay(ratio: real, from: int, to: int)
    requires ratio > 1.0 && to >= 0 && Apart(ratio, from, to)
    ensures !Apart(ratio, to + 1, from - 1)
  {
    OneWay(from as real, (to + 1) as real, ratio);
  }

  lemma {:induction false} OneWay(x: real, y: real, ratio: real)
    requires ratio > 1.0 && y >= 0.0 && x > y * ratio
    ensures y <= x * ratio
  {
    Stretch(y, ratio);
    assert x > y;
    Stretch(x, ratio);
    assert y <= x <= x * ratio;
  }
}
