/** Factor scores packed into one 64-bit word, the most important factor in the highest bits. */
module ScoreBits {
  import opened Common

  const MAX_BIT_NUM: nat := 64

  function Pow2(n: nat): (r: nat)
    ensures r > 0
  {
    if n == 0 then 1 else 2 * Pow2(n - 1)
  }

  function Quotient(x: nat, d: nat): nat
    requires d > 0
  {
    x / d
  }

  /** Shifts of a 64-bit word. */
  function Shl(x: U64, n: nat): U64 {
    (x * Pow2(n)) % TWO64
  }

  function Shr(x: U64, n: nat): nat {
    Quotient(x, Pow2(n))
  }

  datatype Field = Field(width: nat, score: U64)

  predicate Fits(fields: seq<Field>) {
    forall i :: 0 <= i < |fields| ==> fields[i].score < Pow2(fields[i].width)
  }

  function Width(fields: seq<Field>): nat {
    if fields == [] then 0 else fields[0].width + Width(fields[1..])
  }

  /** Room is made for each score before it is added; both steps work modulo 2^64. */
  function Pack(bits: U64, fields: seq<Field>): U64
    decreases |fields|
  {
    if fields == [] then bits else Pack(WrapAdd(Shl(bits, fields[0].width), fields[0].score), fields[1..])
  }

  /** The two shifts that read one field, when `left` bits belong to it and to those after it. */
  function Extract(bits: U64, left: nat, width: nat): nat
    requires width <= left <= MAX_BIT_NUM
  {
    Shr(Shl(bits, MAX_BIT_NUM - left), MAX_BIT_NUM - width)
  }

  /** The fields as digits of a number in mixed radix. */
  function Value(fields: seq<Field>): nat {
    if fields == [] then 0 else fields[0].score * Pow2(Width(fields[1..])) + Value(fields[1..])
  }

  predicate LexLess(a: seq<nat>, b: seq<nat>)
    requires |a| == |b|
  {
    a != [] && (a[0] < b[0] || (a[0] == b[0] && LexLess(a[1..], b[1..])))
  }

  // -------------------------------------------------------------- arithmetic

  lemma {:induction false} TwiceProduct(x: int, y: int)
    ensures 2 * (x * y) == (2 * x) * y
  {
  }

  lemma {:induction false} Pow2Add(a: nat, b: nat)
    ensures Pow2(a + b) == Pow2(a) * Pow2(b)
    decreases a
  {
    if a > 0 {
      Pow2Add(a - 1, b);
      TwiceProduct(Pow2(a - 1), Pow2(b));
    }
  }

  lemma {:induction false} Pow2Monotone(a: nat, b: nat)
    requires a <= b
    ensures Pow2(a) <= Pow2(b)
  {
    Pow2Add(a, b - a);
    MulMonotone(1, Pow2(b - a), Pow2(a));
  }

  lemma {:induction false} Pow2Square(n: nat, x: nat)
    requires Pow2(n) == x
    ensures Pow2(n + n) == x * x
  {
    Pow2Add(n, n);
  }

  lemma {:induction false} Pow2Of64()
    ensures Pow2(MAX_BIT_NUM) == TWO64
  {
    Pow2Square(8, 0x100);
    Pow2Square(16, 0x1_0000);
    Pow2Square(32, 0x1_0000_0000);
  }

  lemma {:induction false} MulMonotone(x: int, y: int, z: nat)
    requires x <= y
    ensures x * z <= y * z
  {
  }

  lemma {:induction false} DivOfDigits(q: nat, d: nat, r: nat)
    requires r < d
    ensures Quotient(q * d + r, d) == q && (q * d + r) % d == r
  {
    var x := q * d + r;
    var y := x / d;
    assert y * d + x % d == x;
    if y < q {
      MulMonotone(y + 1, q, d);
    } else if y > q {
      MulMonotone(q + 1, y, d);
    }
  }

  lemma {:induction false} Factored(s: int, t: int, v: int, p: int)
    ensures s * (t * p) + v * p == (s * t + v) * p
  {
    assert s * (t * p) == (s * t) * p;
  }

  lemma {:induction false} ProductBound(x: nat, y: nat, z: nat)
    requires x < y && z > 0
    ensures x * z < y * z
  {
  }

  /** A digit below its radix, on top of a number below a power, stays below the product. */
  lemma {:induction false} DigitBound(s: nat, w: nat, lo: nat, k: nat)
    requires s < Pow2(w) && lo < Pow2(k)
    ensures s * Pow2(k) + lo < Pow2(w + k)
  {
    Pow2Add(w, k);
    MulMonotone(s + 1, Pow2(w), Pow2(k));
    assert (s + 1) * Pow2(k) == s * Pow2(k) + Pow2(k);
  }

  // ----------------------------------------------------------------- packing

  lemma {:induction false} ValueBound(fields: seq<Field>)
    requires Fits(fields)
    ensures Value(fields) < Pow2(Width(fields))
    decreases |fields|
  {
    if fields != [] {
      ValueBound(fields[1..]);
      DigitBound(fields[0].score, fields[0].width, Value(fields[1..]), Width(fields[1..]));
    }
  }

  lemma {:induction false} WidthConcat(a: seq<Field>, b: seq<Field>)
    ensures Width(a + b) == Width(a) + Width(b)
    decreases |a|
  {
    if a == [] {
      assert a + b == b;
    } else {
      WidthConcat(a[1..], b);
      assert (a + b)[1..] == a[1..] + b;
    }
  }

  lemma {:induction false} ValueConcat(a: seq<Field>, b: seq<Field>)
    ensures Value(a + b) == Value(a) * Pow2(Width(b)) + Value(b)
    decreases |a|
  {
    if a == [] {
      assert a + b == b;
    } else {
      hide Pow2;
      var s, t, p := a[0].score, Pow2(Width(a[1..])), Pow2(Width(b));
      ValueConcat(a[1..], b);
      WidthConcat(a[1..], b);
      Pow2Add(Width(a[1..]), Width(b));
      assert (a + b)[1..] == a[1..] + b;
      Factored(s, t, Value(a[1..]), p);
    }
  }

  /** One step of packing loses nothing while the bits used so far fit. */
  lemma {:induction false} PackStep(bits: U64, used: nat, f: Field)
    requires bits < Pow2(used) && f.score < Pow2(f.width) && used + f.width <= MAX_BIT_NUM
    ensures WrapAdd(Shl(bits, f.width), f.score) == bits * Pow2(f.width) + f.score < Pow2(used + f.width)
  {
    hide Pow2;
    DigitBound(bits, used, f.score, f.width);
    Pow2Monotone(used + f.width, MAX_BIT_NUM);
    Pow2Of64();
  }

  /** No addition and no shift overflows: packing computes the number. */
  lemma {:induction false} PackIsValue(bits: U64, used: nat, fields: seq<Field>)
    requires bits < Pow2(used) && Fits(fields) && used + Width(fields) <= MAX_BIT_NUM
    ensures Pack(bits, fields) == bits * Pow2(Width(fields)) + Value(fields)
    decreases |fields|
  {
    if fields != [] {
      hide Pow2, Shl;
      var f, rest := fields[0], fields[1..];
      PackStep(bits, used, f);
      PackIsValue(bits * Pow2(f.width) + f.score, used + f.width, rest);
      Pow2Add(f.width, Width(rest));
      Factored(bits, Pow2(f.width), f.score, Pow2(Width(rest)));
    }
  }

  lemma {:induction false} ExtractDigit(hi: nat, s: nat, lo: nat, width: nat, below: nat)
    requires s < Pow2(width) && lo < Pow2(below) && width + below <= MAX_BIT_NUM
    requires hi * Pow2(width + below) + (s * Pow2(below) + lo) <= U64_MAX
    ensures Extract(hi * Pow2(width + below) + (s * Pow2(below) + lo), width + below, width) == s
  {
    hide Pow2;
    var left := width + below;
    var up := MAX_BIT_NUM - left;
    var d := s * Pow2(below) + lo;
    DigitBound(s, width, lo, below);
    Pow2Add(left, up);
    Pow2Of64();
    Factored(hi, Pow2(left), d, Pow2(up));
    ProductBound(d, Pow2(left), Pow2(up));
    DivOfDigits(hi, TWO64, d * Pow2(up));
    assert Shl(hi * Pow2(left) + d, up) == d * Pow2(up);
    Pow2Add(below, up);
    Factored(s, Pow2(below), lo, Pow2(up));
    ProductBound(lo, Pow2(below), Pow2(up));
    DivOfDigits(s, Pow2(below + up), lo * Pow2(up));
    assert MAX_BIT_NUM - width == below + up;
  }

  /** The shift pair reads back exactly the score that was packed. */
  lemma {:induction false} ExtractInvertsPack(before: seq<Field>, f: Field, after: seq<Field>)
    requires Fits(before + [f] + after) && Width(before + [f] + after) <= MAX_BIT_NUM
    ensures f.width <= Width([f] + after) <= MAX_BIT_NUM
    ensures Extract(Pack(0, before + [f] + after), Width([f] + after), f.width) == f.score
  {
    var all, tail := before + [f] + after, [f] + after;
    assert all == before + tail && tail[1..] == after;
    WidthConcat(before, tail);
    PackIsValue(0, 0, all);
    ValueConcat(before, tail);
    assert all[|before|] == f;
    assert Fits(after) by {
      forall i | 0 <= i < |after| ensures after[i].score < Pow2(after[i].width) {
        assert all[|before| + 1 + i] == after[i];
      }
    }
    ValueBound(after);
    ExtractDigit(Value(before), f.score, Value(after), f.width, Width(after));
  }

  function Scores(fields: seq<Field>): seq<nat> {
    seq(|fields|, i requires 0 <= i < |fields| => fields[i].score)
  }

  predicate SameWidths(a: seq<Field>, b: seq<Field>) {
    |a| == |b| && forall i :: 0 <= i < |a| ==> a[i].width == b[i].width
  }

  lemma {:induction false} SameTotal(a: seq<Field>, b: seq<Field>)
    requires SameWidths(a, b)
    ensures Width(a) == Width(b)
    decreases |a|
  {
    if a != [] {
      SameTotal(a[1..], b[1..]);
    }
  }

  /** A smaller leading digit decides, whatever follows. */
  lemma {:induction false} LeadingDigitDecides(s: nat, t: nat, x: nat, y: nat, p: nat)
    requires s < t && x < p
    ensures s * p + x < t * p + y
  {
    MulMonotone(s + 1, t, p);
    assert (s + 1) * p == s * p + p;
  }

  lemma {:induction false} ValueOrder(a: seq<Field>, b: seq<Field>)
    requires Fits(a) && Fits(b) && SameWidths(a, b)
    ensures Value(a) < Value(b) <==> LexLess(Scores(a), Scores(b))
    ensures Value(a) == Value(b) <==> Scores(a) == Scores(b)
    decreases |a|
  {
    hide Pow2;
    if a != [] {
      var x, y := a[1..], b[1..];
      ValueOrder(x, y);
      SameTotal(x, y);
      ValueBound(x);
      ValueBound(y);
      assert Scores(a)[1..] == Scores(x) && Scores(b)[1..] == Scores(y);
      assert Scores(a) == [a[0].score] + Scores(x) && Scores(b) == [b[0].score] + Scores(y);
      var p := Pow2(Width(x));
      if a[0].score < b[0].score {
        LeadingDigitDecides(a[0].score, b[0].score, Value(x), Value(y), p);
      } else if a[0].score > b[0].score {
        LeadingDigitDecides(b[0].score, a[0].score, Value(y), Value(x), p);
      }
    } else {
      assert Scores(a) == Scores(b);
    }
  }

  /** Comparing packed words is comparing the scores by priority. */
  lemma {:induction false} PackOrder(a: seq<Field>, b: seq<Field>)
    requires Fits(a) && Fits(b) && SameWidths(a, b) && Width(a) <= MAX_BIT_NUM
    ensures Pack(0, a) < Pack(0, b) <==> LexLess(Scores(a), Scores(b))
    ensures Pack(0, a) == Pack(0, b) <==> Scores(a) == Scores(b)
  {
    SameTotal(a, b);
    PackIsValue(0, 0, a);
    PackIsValue(0, 0, b);
    ValueOrder(a, b);
  }
}
