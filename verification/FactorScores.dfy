/** The factor-based policy: any list of factors whose widths fit in a word, with any pure
    scores and advice. Scores are clamped, packed and sorted, and can be read back. */
module FactorScores {
  import opened Common
  import opened ScoreBits

  const INT_MAX: int := 0x7FFF_FFFF_FFFF_FFFF
  const MIN_COUNT: real := 0.0001

  /** The machine's signed integer. */
  type Int = x: int | -INT_MAX - 1 <= x <= INT_MAX

  datatype Backend = Backend(id: string, healthy: bool, connCount: int, connScore: int, labels: map<string, string>)

  datatype Advice = Neutral | Positive | Negative

  /** `rate` gives the score a factor adds, or nothing when the factor adds none. */
  datatype Factor = Factor(
    width: nat, rate: Backend -> Option<Int>, canRoute: nat -> bool, advise: (Backend, Backend) -> (Advice, real))

  datatype Scored = Scored(ctx: Backend, bits: U64)

  // ----------------------------------------------------------------- scores

  lemma {:induction false} PowerFits(n: nat)
    requires n < 63
    ensures Pow2(n) <= INT_MAX
  {
    Pow2Of64();
    assert Pow2(64) == 2 * Pow2(63) && Pow2(63) == 2 * Pow2(62);
    Pow2Monotone(n, 62);
  }

  /** The integer 1 shifted left, in 64 bits and signed. */
  function ShiftedOne(n: nat): Int {
    if n < 63 then PowerFits(n); Pow2(n)
    else if n == 63 then -INT_MAX - 1
    else 0
  }

  /** The score after the clamp, as the machine computes it: the subtraction wraps, and the
      conversion to an unsigned word keeps the bits. */
  function ClampScore(score: Int, width: nat): U64 {
    var one := ShiftedOne(width);
    if score >= one then (if one == -INT_MAX - 1 then INT_MAX else if one == 0 then U64_MAX else one - 1)
    else if score < 0 then 0
    else score
  }

  function Rated(f: Factor, b: Backend): U64 {
    match f.rate(b)
    case None => 0
    case Some(score) => ClampScore(score, f.width)
  }

  function Fields(fs: seq<Factor>, b: Backend): seq<Field> {
    seq(|fs|, i requires 0 <= i < |fs| => Field(fs[i].width, Rated(fs[i], b)))
  }

  function TotalWidth(fs: seq<Factor>): nat {
    if |fs| == 0 then 0 else fs[0].width + TotalWidth(fs[1..])
  }

  function Bits(fs: seq<Factor>, b: Backend): U64 {
    Pack(0, Fields(fs, b))
  }

  lemma {:induction false} ShiftedOneIsPower(n: nat)
    ensures n < 63 ==> ShiftedOne(n) == Pow2(n)
    ensures Pow2(63) == INT_MAX + 1
  {
    Pow2Of64();
    assert Pow2(64) == 2 * Pow2(63);
  }

  /** The clamp keeps every score within the factor's bits. */
  lemma {:induction false} ClampFits(score: Int, width: nat)
    requires width <= MAX_BIT_NUM
    ensures ClampScore(score, width) < Pow2(width)
  {
    ShiftedOneIsPower(width);
    Pow2Of64();
  }

  /** The clamp is the nearest value in range for every score if and only if the width is at
      most 62: at 63 and 64 bits the bound itself overflows. */
  lemma {:induction false} ClampIsNearest(width: nat)
    requires width <= MAX_BIT_NUM
    ensures (forall score: Int :: ClampScore(score, width) == Max(0, Min(score, Pow2(width) - 1))) <==> width <= 62
  {
    ShiftedOneIsPower(width);
    Pow2Of64();
    if width > 62 {
      assert ClampScore(0, width) != Max(0, Min(0, Pow2(width) - 1));
    }
  }

  lemma {:induction false} FieldsOk(fs: seq<Factor>, b: Backend)
    requires TotalWidth(fs) <= MAX_BIT_NUM
    ensures Width(Fields(fs, b)) == TotalWidth(fs)
    ensures Fits(Fields(fs, b))
    decreases |fs|
  {
    if |fs| != 0 {
      FieldsOk(fs[1..], b);
      assert Fields(fs, b)[1..] == Fields(fs[1..], b);
      if fs[0].rate(b).Some? {
        ClampFits(fs[0].rate(b).value, fs[0].width);
      }
      forall i | 0 <= i < |fs| ensures Fields(fs, b)[i].score < Pow2(Fields(fs, b)[i].width) {
        if i > 0 {
          assert Fields(fs, b)[i] == Fields(fs[1..], b)[i - 1];
        }
      }
    }
  }

  lemma {:induction false} WidthSplits(fs: seq<Factor>, k: nat)
    requires k <= |fs|
    ensures TotalWidth(fs) == TotalWidth(fs[..k]) + TotalWidth(fs[k..])
    decreases k
  {
    if k == 0 {
      assert fs[0..] == fs;
    } else {
      WidthSplits(fs[1..], k - 1);
      assert fs[1..][k - 1..] == fs[k..] && fs[1..][..k - 1] == fs[..k][1..];
    }
  }

  lemma {:induction false} WidthFrom(fs: seq<Factor>, k: nat)
    requires k < |fs|
    ensures TotalWidth(fs[k..]) == fs[k].width + TotalWidth(fs[k + 1..])
  {
    assert fs[k..][1..] == fs[k + 1..];
  }

  /** Both shifts on a packed word give back one factor's score. */
  lemma {:induction false} ReadsBack(fs: seq<Factor>, b: Backend, k: nat)
    requires k < |fs| && TotalWidth(fs) <= MAX_BIT_NUM
    ensures fs[k].width <= TotalWidth(fs[k..]) <= MAX_BIT_NUM
    ensures Extract(Bits(fs, b), TotalWidth(fs[k..]), fs[k].width) == Rated(fs[k], b)
  {
    WidthSplits(fs, k);
    WidthFrom(fs, k);
    FieldsOk(fs, b);
    FieldsOk(fs[k..], b);
    var all := Fields(fs, b);
    assert all == all[..k] + [all[k]] + all[k + 1..];
    assert [all[k]] + all[k + 1..] == Fields(fs[k..], b);
    ExtractInvertsPack(all[..k], all[k], all[k + 1..]);
  }

  /** `a` is less busy than `b` by priority. */
  predicate Below(fs: seq<Factor>, a: Backend, b: Backend) {
    LexLess(Scores(Fields(fs, a)), Scores(Fields(fs, b)))
  }

  predicate SameScores(fs: seq<Factor>, a: Backend, b: Backend) {
    forall k :: 0 <= k < |fs| ==> Rated(fs[k], a) == Rated(fs[k], b)
  }

  /** Comparing the packed words is comparing factor by factor, by priority. */
  lemma {:induction false} BitsMeanPriority(fs: seq<Factor>, a: Backend, b: Backend)
    requires TotalWidth(fs) <= MAX_BIT_NUM
    ensures Bits(fs, a) < Bits(fs, b) <==> Below(fs, a, b)
    ensures Bits(fs, a) == Bits(fs, b) <==> SameScores(fs, a, b)
  {
    FieldsOk(fs, a);
    FieldsOk(fs, b);
    PackOrder(Fields(fs, a), Fields(fs, b));
    var x, y := Scores(Fields(fs, a)), Scores(Fields(fs, b));
    assert forall k :: 0 <= k < |fs| ==> x[k] == Rated(fs[k], a) && y[k] == Rated(fs[k], b);
  }

  // ---------------------------------------------------------------- scoring

  predicate Ordered(s: seq<Scored>) {
    forall i, j :: 0 <= i < j < |s| ==> s[i].bits <= s[j].bits
  }

  function Packed(fs: seq<Factor>, backends: seq<Backend>): seq<Scored> {
    seq(|backends|, i requires 0 <= i < |backends| => Scored(backends[i], Bits(fs, backends[i])))
  }

  /** Every entry carries the packed score of its backend. */
  predicate Carries(fs: seq<Factor>, order: seq<Scored>) {
    forall i :: 0 <= i < |order| ==> order[i].bits == Bits(fs, order[i].ctx)
  }

  /** A result of scoring: the backends with their packed scores, in order. */
  predicate Ranks(fs: seq<Factor>, backends: seq<Backend>, order: seq<Scored>) {
    && multiset(order) == multiset(Packed(fs, backends))
    && |order| == |backends|
    && Ordered(order)
    && Carries(fs, order)
  }

  method InsertByBits(s: seq<Scored>, x: Scored) returns (r: seq<Scored>)
    requires Ordered(s)
    ensures multiset(r) == multiset(s) + multiset{x} && Ordered(r)
  {
    var k := 0;
    while k < |s| && s[k].bits <= x.bits
      invariant k <= |s| && forall j :: 0 <= j < k ==> s[j].bits <= x.bits
    {
      k := k + 1;
    }
    InsertKeepsOrder(s, k, x);
    r := s[..k] + [x] + s[k..];
  }

  method SortByBits(s: seq<Scored>) returns (r: seq<Scored>)
    ensures multiset(r) == multiset(s) && Ordered(r)
  {
    r := [];
    for i := 0 to |s|
      invariant multiset(r) == multiset(s[..i]) && Ordered(r)
    {
      r := InsertByBits(r, s[i]);
      assert s[..i + 1] == s[..i] + [s[i]];
    }
    assert s[..|s|] == s;
  }

  lemma {:induction false} InsertOrders(r: seq<Scored>, k: nat, x: Scored)
    requires Ordered(r) && k <= |r|
    requires forall j :: 0 <= j < k ==> r[j].bits <= x.bits
    requires k < |r| ==> x.bits < r[k].bits
    ensures Ordered(r[..k] + [x] + r[k..])
  {
    assert forall j :: k <= j < |r| ==> x.bits < r[j].bits;
  }

  lemma {:induction false} InsertKeepsOrder(r: seq<Scored>, k: nat, x: Scored)
    requires Ordered(r) && k <= |r|
    requires forall j :: 0 <= j < k ==> r[j].bits <= x.bits
    requires k < |r| ==> x.bits < r[k].bits
    ensures Ordered(r[..k] + [x] + r[k..])
    ensures multiset(r[..k] + [x] + r[k..]) == multiset(r) + multiset{x}
  {
    hide Ordered;
    assert r == r[..k] + r[k..];
    InsertOrders(r, k, x);
  }

  lemma {:induction false} PackSnoc(bits: U64, fields: seq<Field>, f: Field)
    ensures Pack(bits, fields + [f]) == WrapAdd(Shl(Pack(bits, fields), f.width), f.score)
    decreases |fields|
  {
    if fields == [] {
      assert fields + [f] == [f] && [f][1..] == [];
      assert Pack(bits, [f]) == Pack(WrapAdd(Shl(bits, f.width), f.score), []);
    } else {
      PackSnoc(WrapAdd(Shl(bits, fields[0].width), fields[0].score), fields[1..], f);
      assert (fields + [f])[1..] == fields[1..] + [f];
    }
  }

  /** One factor scores every backend: room first, then its clamped score. */
  method ApplyFactor(f: Factor, scored: seq<Scored>) returns (r: seq<Scored>)
    ensures |r| == |scored|
    ensures forall j :: 0 <= j < |r| ==>
        r[j] == Scored(scored[j].ctx, WrapAdd(Shl(scored[j].bits, f.width), Rated(f, scored[j].ctx)))
  {
    r := scored;
    for j := 0 to |r|
      invariant |r| == |scored|
      invariant forall i :: 0 <= i < |r| ==>
          r[i] == if i < j then scored[i].(bits := Shl(scored[i].bits, f.width)) else scored[i]
    {
      r := r[j := r[j].(bits := Shl(r[j].bits, f.width))];
    }
    for j := 0 to |r|
      invariant |r| == |scored|
      invariant forall i :: 0 <= i < |r| ==>
                  && r[i].ctx == scored[i].ctx
                  && r[i].bits ==
                     if i < j then WrapAdd(Shl(scored[i].bits, f.width), Rated(f, scored[i].ctx))
                     else Shl(scored[i].bits, f.width)
    {
      var score := f.rate(r[j].ctx);
      if score.Some? {
        r := r[j := r[j].(bits := WrapAdd(r[j].bits, ClampScore(score.value, f.width)))];
      }
    }
  }

  /** Scores and sorts the backends. */
  method UpdateScore(fs: seq<Factor>, backends: seq<Backend>) returns (order: seq<Scored>)
    ensures Ranks(fs, backends, order)
  {
    var scored := seq(|backends|, i requires 0 <= i < |backends| => Scored(backends[i], 0));
    for k := 0 to |fs|
      invariant |scored| == |backends|
      invariant forall j :: 0 <= j < |backends| ==> scored[j] == Scored(backends[j], Bits(fs[..k], backends[j]))
    {
      scored := ApplyFactor(fs[k], scored);
      forall j | 0 <= j < |backends| ensures scored[j].bits == Bits(fs[..k + 1], backends[j]) {
        var f := Fields(fs[..k], backends[j]);
        assert Fields(fs[..k + 1], backends[j]) == f + [Field(fs[k].width, Rated(fs[k], backends[j]))];
        PackSnoc(0, f, Field(fs[k].width, Rated(fs[k], backends[j])));
      }
    }
    assert fs[..|fs|] == fs;
    assert scored == Packed(fs, backends);
    order := SortByBits(scored);
    RankedCarry(fs, backends, order);
  }

  lemma {:induction false} RankedCarry(fs: seq<Factor>, backends: seq<Backend>, order: seq<Scored>)
    requires multiset(order) == multiset(Packed(fs, backends))
    ensures Carries(fs, order)
    ensures |order| == |backends|
  {
    assert |multiset(order)| == |order| && |multiset(Packed(fs, backends))| == |backends|;
    forall i | 0 <= i < |order| ensures order[i].bits == Bits(fs, order[i].ctx) {
      assert order[i] in multiset(order);
      assert order[i] in Packed(fs, backends);
    }
  }
}
