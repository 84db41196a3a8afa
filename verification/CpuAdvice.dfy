/** What the CPU factor's advice and estimates amount to, in plain usages. */
module CpuAdvice {
  import opened Common
  import opened FactorScores
  import opened CpuFactor

  /** The usage gap is wide enough: by the source's usage f and the target's t, with p for one more
      connection. In percent: t is at most 1.2 f - 26. */
  predicate Wide(f: real, t: real, p: real) {
    t <= 1.2 * f - 0.26 && 21.0 * p <= 1.3 + 10.0 * f - 11.0 * t
  }

  /** The advice is positive if and only if the gap is wide in the averages and in the latest
      estimates. */
  lemma {:induction false} AdviceIff(snapshots: Snapshots, perConn: real, perSecond: real, from: Backend, to: Backend)
    ensures var (f, f') := Usage(snapshots, perConn, from.id, from.connScore);
            var (t, t') := Usage(snapshots, perConn, to.id, to.connScore);
            Advise(snapshots, perConn, perSecond, from, to).0 == Positive <==>
            Wide(f, t, perConn) && Wide(f', t', perConn)
  {
    hide Usage;
  }

  /** The usage that the metrics show and nothing has changed since. */
  predicate Steady(snapshots: Snapshots, b: Backend, usage: real) {
    && b.id in snapshots && 0.0 <= usage <= 1.0
    && snapshots[b.id].avg == snapshots[b.id].latest == usage && snapshots[b.id].connCount == b.connScore
  }

  lemma {:induction false} SteadyUsage(snapshots: Snapshots, perConn: real, b: Backend, usage: real)
    requires Steady(snapshots, b, usage)
    ensures Usage(snapshots, perConn, b.id, b.connScore) == (usage, usage)
  {
    assert (b.connScore - snapshots[b.id].connCount) as real * perConn == 0.0;
  }

  /** 95% against 80% calls for a migration, unless one connection is nearly a tenth of a backend; 25%
      against 10% never does. */
  lemma {:induction false} SensitiveWhenBusy(snapshots: Snapshots, perConn: real, perSecond: real, from: Backend,
      to: Backend)
    ensures Steady(snapshots, from, 0.95) && Steady(snapshots, to, 0.8) ==>
              (Advise(snapshots, perConn, perSecond, from, to).0 == Positive <==> 21.0 * perConn <= 2.0)
    ensures Steady(snapshots, from, 0.25) && Steady(snapshots, to, 0.1) ==>
              Advise(snapshots, perConn, perSecond, from, to).0 != Positive
  {
    AdviceIff(snapshots, perConn, perSecond, from, to);
    hide Usage, Advise, Steady;
    if Steady(snapshots, from, 0.95) && Steady(snapshots, to, 0.8) {
      SteadyUsage(snapshots, perConn, from, 0.95);
      SteadyUsage(snapshots, perConn, to, 0.8);
    }
    if Steady(snapshots, from, 0.25) && Steady(snapshots, to, 0.1) {
      SteadyUsage(snapshots, perConn, from, 0.25);
      SteadyUsage(snapshots, perConn, to, 0.1);
    }
  }

  lemma {:induction false} Product(n: int, m: int, p: real)
    requires n <= m && p >= 0.0
    ensures n as real * p <= m as real * p
  {
  }

  /** Every connection adds its share to the latest estimate, which stays between nothing and full;
      the average is the metrics' own. */
  lemma {:induction false} EstimateFollows(snapshots: Snapshots, perConn: real, id: string, n: int, m: int)
    requires id in snapshots && snapshots[id].avg >= 0.0 && snapshots[id].latest >= 0.0 && perConn >= 0.0 && n <= m
    ensures var s := snapshots[id];
            var (a, x) := Usage(snapshots, perConn, id, n);
            var (b, y) := Usage(snapshots, perConn, id, m);
            && a == b == s.avg && 0.0 <= x <= y <= 1.0
            && (0.0 < x && y < 1.0 ==> y - x == (m - n) as real * perConn)
            && (n == s.connCount && s.latest <= 1.0 ==> x == s.latest)
  {
    var s := snapshots[id];
    Product(n - s.connCount, m - s.connCount, perConn);
    assert (m - s.connCount) as real * perConn - (n - s.connCount) as real * perConn == (m - n) as real * perConn;
  }

  /** The speed without a configured one: at the estimated usage per connection, a whole backend in
      ten minutes. */
  lemma {:induction false} SpeedOfAdvice(snapshots: Snapshots, perConn: real, perSecond: real, from: Backend,
      to: Backend)
    requires Advise(snapshots, perConn, perSecond, from, to).0 == Positive && perConn > 0.0
    ensures var speed := Advise(snapshots, perConn, perSecond, from, to).1;
            if perSecond > 0.0 then speed == perSecond else speed * perConn * 600.0 == 1.0
  {
    hide Usage;
    if perSecond <= 0.0 {
      assert 1.0 / perConn * perConn == 1.0;
      assert 1.0 / perConn / BALANCE_RATIO * perConn * 600.0 == 1.0 / perConn * perConn;
    }
  }

  /** The estimate per connection is the mean usage, if that is at least a thousandth or the backends
      are used by more than a tenth; else the estimate stays. It is never zero. */
  lemma {:induction false} EstimateIsMean(usage: real, conns: int, backends: nat, before: real)
    requires usage >= 0.0 && (conns > 0 ==> backends > 0)
    ensures var p := PerConn(usage, conns, backends, before);
            && p > 0.0
            && (conns > 0 && (usage >= 0.001 * conns as real || usage > 0.1 * backends as real) ==>
                  p * conns as real == usage)
            && (conns <= 0 || (usage < 0.001 * conns as real && usage <= 0.1 * backends as real) ==>
                  p == if before > 0.0 then before else 0.001)
  {
    if conns > 0 {
      Quotient(usage, conns as real, 0.001);
      Quotient(usage, backends as real, 0.1);
    }
  }

  lemma {:induction false} Quotient(x: real, n: real, bound: real)
    requires n > 0.0
    ensures x / n * n == x && (x / n <= bound <==> x <= bound * n) && (x / n < bound <==> x < bound * n)
    ensures x > 0.0 ==> x / n > 0.0
  {
    var q := x / n;
    assert q * n == x;
    assert (q - bound) * n == x - bound * n;
  }

  // ----------------------------------------------------------------- samples

  /** One sample, and then another value n times. */
  function Jump(u: real, v: real, n: nat): seq<Option<real>> {
    if n == 0 then [Some(u)] else Jump(u, v, n - 1) + [Some(v)]
  }

  function Halved(x: real, n: nat): real {
    if n == 0 then x else Halved(x, n - 1) / 2.0
  }

  lemma {:induction false} HalvedSign(x: real, n: nat)
    ensures x >= 0.0 ==> 0.0 <= Halved(x, n) <= x
    ensures x <= 0.0 ==> x <= Halved(x, n) <= 0.0
    decreases n
  {
    if n > 0 {
      HalvedSign(x, n - 1);
    }
  }

  /** After a jump the smoothed usage closes half of the gap with every sample. */
  lemma {:induction false} SmoothingHalvesTheGap(u: real, v: real, n: nat)
    requires u >= 0.0 && v >= 0.0
    ensures Smoothed(Jump(u, v, n)) == v + Halved(u - v, n)
    decreases n
  {
    var samples := Jump(u, v, n);
    HalvedSign(u - v, n);
    if n == 0 {
      assert samples[..0] == [];
    } else {
      SmoothingHalvesTheGap(u, v, n - 1);
      HalvedSign(u - v, n - 1);
      assert samples[..|samples| - 1] == Jump(u, v, n - 1);
    }
  }

  /** The latest usage is the last sample that is there. */
  lemma {:induction false} LatestIsLast(samples: seq<Option<real>>, i: nat)
    requires i < |samples| && samples[i].Some? && forall j :: i < j < |samples| ==> samples[j].None?
    ensures Latest(samples) == samples[i].value
    decreases |samples|
  {
    if i < |samples| - 1 {
      LatestIsLast(samples[..|samples| - 1], i);
    }
  }

  // ----------------------------------------------------------------- reports

  lemma {:induction false} SmoothedSign(samples: seq<Option<real>>)
    requires forall i :: 0 <= i < |samples| && samples[i].Some? ==> samples[i].value >= 0.0
    ensures Smoothed(samples) >= 0.0 <==> exists i :: 0 <= i < |samples| && samples[i].Some?
    decreases |samples|
  {
    if |samples| > 0 {
      var before := samples[..|samples| - 1];
      SmoothedSign(before);
      assert forall i :: 0 <= i < |before| ==> before[i] == samples[i];
      if samples[|samples| - 1].None? && exists i :: 0 <= i < |samples| && samples[i].Some? {
        var i :| 0 <= i < |samples| && samples[i].Some?;
        assert before[i].Some?;
      }
    }
  }

  /** The report has a sample, and the backend had no snapshot or an older one. */
  predicate News(snapshots: Snapshots, r: Report) {
    && (exists i :: 0 <= i < |r.samples| && r.samples[i].Some?)
    && (r.id !in snapshots || snapshots[r.id].updated < r.at)
  }

  /** One report per backend. */
  predicate OnePerBackend(reports: seq<Report>) {
    forall i, j :: 0 <= i < j < |reports| ==> reports[i].id != reports[j].id
  }

  predicate Natural(reports: seq<Report>) {
    forall n, i :: 0 <= n < |reports| && 0 <= i < |reports[n].samples| && reports[n].samples[i].Some? ==>
      reports[n].samples[i].value >= 0.0
  }

  lemma {:induction false} CountedIsNews(snapshots: Snapshots, r: Report)
    requires forall i :: 0 <= i < |r.samples| && r.samples[i].Some? ==> r.samples[i].value >= 0.0
    ensures Counted(snapshots, r) <==> News(snapshots, r)
  {
    SmoothedSign(r.samples);
  }

  /** Backends that no report names keep their snapshot. */
  lemma {:induction false} UnreportedStays(snapshots: Snapshots, reports: seq<Report>, id: string)
    requires forall i :: 0 <= i < |reports| ==> reports[i].id != id
    ensures (id in Renewed(snapshots, reports) <==> id in snapshots)
    ensures id in snapshots ==> Renewed(snapshots, reports)[id] == snapshots[id]
    decreases |reports|
  {
    if |reports| > 0 {
      UnreportedStays(snapshots, reports[..|reports| - 1], id);
    }
  }

  /** A backend's snapshot is the report's if and only if the report is news; it keeps the count of
      connections and the time that belong to it. */
  lemma {:induction false} RenewedIff(snapshots: Snapshots, reports: seq<Report>, n: nat)
    requires n < |reports| && OnePerBackend(reports) && Natural(reports)
    ensures var r, after := reports[n], Renewed(snapshots, reports);
            if News(snapshots, r)
            then && r.id in after && after[r.id].connCount == r.connCount && after[r.id].updated == r.at
                 && after[r.id].avg == Averaged(r.samples) && after[r.id].latest == Latest(r.samples)
            else (r.id in after <==> r.id in snapshots) && (r.id in snapshots ==> after[r.id] == snapshots[r.id])
    decreases |reports|
  {
    var before, last, r := reports[..|reports| - 1], |reports| - 1, reports[n];
    assert forall i :: 0 <= i < |before| ==> before[i] == reports[i];
    if n == last {
      UnreportedStays(snapshots, before, r.id);
      CountedIsNews(Renewed(snapshots, before), r);
    } else {
      RenewedIff(snapshots, before, n);
      assert reports[last].id != r.id;
    }
  }
}
