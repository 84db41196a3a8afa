/** The CPU factor over the reals: usage estimates, migration advice, and why a connection
    never comes back to a backend it left under the same snapshot. */
module CpuFactor {
  import opened Common
  import opened FactorScores

  const EWMA_ALPHA: real := 0.5
  const MIN_CPU_PER_CONN: real := 0.001
  const BALANCED_RATIO: real := 1.2
  const UNBALANCED_RATIO: real := 1.1
  const BALANCE_RATIO: real := 600.0
  const SCORE_STEP: int := 5
  const METRIC_EXPIRATION: int := 120_000_000_000

  type Time = int

  datatype Snapshot = Snapshot(avg: real, latest: real, connCount: int, updated: Time)

  /** What the metrics say about one backend; a missing sample is None. */
  datatype Report = Report(id: string, connCount: int, at: Time, samples: seq<Option<real>>)

  type Snapshots = map<string, Snapshot>

  // ----------------------------------------------------------------- usages

  /** The smoothed usage before the cap; negative while there is no sample. */
  function Smoothed(samples: seq<Option<real>>): real {
    if |samples| == 0 then -1.0
    else
      var before, last := Smoothed(samples[..|samples| - 1]), samples[|samples| - 1];
      if last.None? then before
      else if before < 0.0 then last.value
      else before * (1.0 - EWMA_ALPHA) + last.value * EWMA_ALPHA
  }

  function Latest(samples: seq<Option<real>>): real {
    if |samples| == 0 then -1.0
    else if samples[|samples| - 1].Some? then samples[|samples| - 1].value
    else Latest(samples[..|samples| - 1])
  }

  method CalcAvgUsage(samples: seq<Option<real>>) returns (avg: real, latest: real)
    ensures avg == Averaged(samples)
    ensures latest == Latest(samples)
  {
    avg, latest := -1.0, -1.0;
    for i := 0 to |samples|
      invariant avg == Smoothed(samples[..i]) && latest == Latest(samples[..i])
    {
      assert samples[..i + 1][..i] == samples[..i];
      if samples[i].Some? {
        var value := samples[i].value;
        latest := value;
        avg := if avg < 0.0 then value else avg * (1.0 - EWMA_ALPHA) + value * EWMA_ALPHA;
      }
    }
    assert samples[..|samples|] == samples;
    if avg > 1.0 {
      avg := 1.0;
    }
  }

  /** Smoothing stays between the smallest and the largest sample. */
  lemma {:induction false} SmoothedStaysBetween(samples: seq<Option<real>>, lo: real, hi: real)
    requires 0.0 <= lo <= hi
    requires forall i :: 0 <= i < |samples| && samples[i].Some? ==> lo <= samples[i].value <= hi
    ensures if exists i :: 0 <= i < |samples| && samples[i].Some? then lo <= Smoothed(samples) <= hi
            else Smoothed(samples) == -1.0
    decreases |samples|
  {
    if |samples| > 0 {
      var before := samples[..|samples| - 1];
      SmoothedStaysBetween(before, lo, hi);
      if samples[|samples| - 1].None? && exists i :: 0 <= i < |samples| && samples[i].Some? {
        var i :| 0 <= i < |samples| && samples[i].Some?;
        assert before[i].Some?;
      }
    }
  }

  /** The estimated usage, average and latest; without metrics a backend counts as full. */
  function Usage(snapshots: Snapshots, perConn: real, id: string, connScore: int): (real, real) {
    if id !in snapshots || snapshots[id].avg < 0.0 || snapshots[id].latest < 0.0 then (1.0, 1.0)
    else
      var s := snapshots[id];
      var latest := s.latest + (connScore - s.connCount) as real * perConn;
      (s.avg, if latest > 1.0 then 1.0 else if latest < 0.0 then 0.0 else latest)
  }

  /** The score is in steps of five percent and needs at most 20 of the 32 values. */
  function UsageScore(latest: real): (r: int)
    requires 0.0 <= latest <= 1.0
    ensures 0 <= r <= 20
    ensures 5.0 * r as real <= 100.0 * latest < 5.0 * (r + 1) as real
  {
    (latest * 100.0).Floor / SCORE_STEP
  }

  /** The migration advice. The quotient is taken only with a positive estimate: see
      PositiveAdviceHasEstimate. */
  function Advise(snapshots: Snapshots, perConn: real, perSecond: real, from: Backend, to: Backend): (Advice, real)
  {
    var (fromAvg, fromLatest) := Usage(snapshots, perConn, from.id, from.connScore);
    var (toAvg, toLatest) := Usage(snapshots, perConn, to.id, to.connScore);
    if (1.3 - (toAvg + perConn)) * UNBALANCED_RATIO < 1.3 - (fromAvg - perConn)
       || (1.3 - (toLatest + perConn)) * UNBALANCED_RATIO < 1.3 - (fromLatest - perConn) then
      (Negative, 0.0)
    else if 1.3 - toAvg < (1.3 - fromAvg) * BALANCED_RATIO || 1.3 - toLatest < (1.3 - fromLatest) * BALANCED_RATIO then
      (Neutral, 0.0)
    else if perSecond > 0.0 then (Positive, perSecond)
    else (Positive, if perConn == 0.0 then 0.0 else 1.0 / perConn / BALANCE_RATIO)
  }

  predicate Capped(snapshots: Snapshots) {
    forall id :: id in snapshots ==> snapshots[id].avg <= 1.0
  }

  function Average(snapshots: Snapshots, id: string): real {
    Usage(snapshots, 0.0, id, 0).0
  }

  /** Positive advice goes from a strictly higher average to a strictly lower one, however the
      connections are spread. */
  lemma {:induction false} AdviceGoesDown(snapshots: Snapshots, perConn: real, perSecond: real, from: Backend,
      to: Backend)
    requires Capped(snapshots) && Advise(snapshots, perConn, perSecond, from, to).0 == Positive
    ensures Average(snapshots, to.id) < Average(snapshots, from.id)
  {
  }

  /** Under one snapshot, the advice is never reversed, however many connections moved. */
  lemma {:induction false} NoPingPong(snapshots: Snapshots, perConn: real, perSecond: real, from: Backend,
      to: Backend, moved: int, arrived: int)
    requires Capped(snapshots) && Advise(snapshots, perConn, perSecond, from, to).0 == Positive
    ensures Advise(snapshots, perConn, perSecond,
            to.(connScore := to.connScore + arrived),
            from.(connScore := from.connScore - moved)).0 != Positive
  {
    AdviceGoesDown(snapshots, perConn, perSecond, from, to);
    var back, there := to.(connScore := to.connScore + arrived), from.(connScore := from.connScore - moved);
    if Advise(snapshots, perConn, perSecond, back, there).0 == Positive {
      AdviceGoesDown(snapshots, perConn, perSecond, back, there);
    }
  }

  datatype Move = Move(from: Backend, to: Backend)

  /** A chain of advised moves under one snapshot: each starts where the one before went. */
  predicate Chain(snapshots: Snapshots, perConn: real, perSecond: real, moves: seq<Move>) {
    && (forall i :: 0 <= i < |moves| ==>
        Advise(snapshots, perConn, perSecond, moves[i].from, moves[i].to).0 == Positive)
    && (forall i :: 0 < i < |moves| ==> moves[i].from.id == moves[i - 1].to.id)
  }

  /** No chain of advised moves comes back to a backend it left. */
  lemma {:induction false} NoCycle(snapshots: Snapshots, perConn: real, perSecond: real, moves: seq<Move>, i: nat,
      j: nat)
    requires Capped(snapshots) && Chain(snapshots, perConn, perSecond, moves) && i <= j < |moves|
    ensures Average(snapshots, moves[j].to.id) < Average(snapshots, moves[i].from.id)
    ensures moves[j].to.id != moves[i].from.id
    decreases j
  {
    AdviceGoesDown(snapshots, perConn, perSecond, moves[j].from, moves[j].to);
    if i < j {
      NoCycle(snapshots, perConn, perSecond, moves, i, j - 1);
    }
  }

  /** A backend without metrics is never a target. */
  lemma {:induction false} NoMetricsNoTarget(snapshots: Snapshots, perConn: real, perSecond: real, from: Backend,
      to: Backend)
    requires Capped(snapshots) && to.id !in snapshots
    ensures Advise(snapshots, perConn, perSecond, from, to).0 != Positive
  {
  }

  // ------------------------------------------------------------------ state

  predicate Counts(s: Snapshot) {
    s.latest > 0.0 && s.connCount > 0
  }

  function TotalUsage(snapshots: Snapshots, keys: seq<string>): real
    requires forall k :: k in keys ==> k in snapshots
  {
    if |keys| == 0 then 0.0
    else
      var s := snapshots[keys[|keys| - 1]];
      TotalUsage(snapshots, keys[..|keys| - 1]) + if Counts(s) then s.latest else 0.0
  }

  function TotalConns(snapshots: Snapshots, keys: seq<string>): int
    requires forall k :: k in keys ==> k in snapshots
  {
    if |keys| == 0 then 0
    else
      var s := snapshots[keys[|keys| - 1]];
      TotalConns(snapshots, keys[..|keys| - 1]) + if Counts(s) then s.connCount else 0
  }

  /** The average that a report's samples give. */
  function Averaged(samples: seq<Option<real>>): real {
    if Smoothed(samples) > 1.0 then 1.0 else Smoothed(samples)
  }

  /** A report counts if it has samples, is newer than the snapshot, and has a usage. */
  predicate Counted(snapshots: Snapshots, r: Report) {
    |r.samples| > 0 && (r.id in snapshots ==> snapshots[r.id].updated < r.at) && Averaged(r.samples) >= 0.0
  }

  /** The snapshots after all reports, in order. */
  function Renewed(snapshots: Snapshots, reports: seq<Report>): Snapshots {
    if |reports| == 0 then snapshots
    else
      var before, r := Renewed(snapshots, reports[..|reports| - 1]), reports[|reports| - 1];
      if Counted(before, r) then before[r.id := Snapshot(Averaged(r.samples), Latest(r.samples), r.connCount, r.at)]
      else before
  }

  ghost predicate ListsOnce(keys: seq<string>, snapshots: Snapshots) {
    && (forall k :: k in keys <==> k in snapshots)
    && forall i, j :: 0 <= i < j < |keys| ==> keys[i] != keys[j]
  }

  /** The mean usage of a connection. A very low mean in an idle cluster is not believed, and
      without a positive estimate the minimum is used. */
  function PerConn(usage: real, conns: int, backends: nat, before: real): real
    requires conns > 0 ==> backends > 0
  {
    var estimate :=
      if conns <= 0 || (usage / conns as real < MIN_CPU_PER_CONN && usage / backends as real <= 0.1) then before
      else usage / conns as real;
    if estimate > 0.0 then estimate else MIN_CPU_PER_CONN
  }

  lemma {:induction false} ListsOneMore(keys: seq<string>, before: Snapshots, after: Snapshots, k: string)
    requires ListsOnce(keys, before) && k !in before && after.Keys == before.Keys + {k}
    ensures ListsOnce(keys + [k], after)
  {
    assert k !in keys;
  }

  lemma {:induction false} TotalsSnoc(snapshots: Snapshots, keys: seq<string>, k: string)
    requires k in snapshots && forall x :: x in keys ==> x in snapshots
    ensures TotalUsage(snapshots, keys + [k]) ==
        TotalUsage(snapshots, keys) + if Counts(snapshots[k]) then snapshots[k].latest else 0.0
    ensures TotalConns(snapshots, keys + [k]) ==
        TotalConns(snapshots, keys) + if Counts(snapshots[k]) then snapshots[k].connCount else 0
  {
    assert (keys + [k])[..|keys|] == keys;
  }

  lemma {:induction false} ConnsNeedBackends(snapshots: Snapshots, keys: seq<string>)
    requires forall k :: k in keys ==> k in snapshots
    ensures TotalConns(snapshots, keys) > 0 ==> |snapshots| > 0
  {
    if |keys| > 0 {
      assert keys[0] in snapshots;
    }
  }

  class FactorCPU {
    var snapshots: Snapshots
    var perConn: real
    var lastMetricTime: Time

    /** Averages are usages, and as soon as there is a snapshot the estimate is positive. */
    predicate Valid()
      reads this
    {
      && (forall id :: id in snapshots ==> 0.0 <= snapshots[id].avg <= 1.0)
      && (snapshots != map[] ==> perConn > 0.0)
      && perConn >= 0.0
    }

    constructor ()
      ensures Valid() && snapshots == map[] && lastMetricTime == 0
    {
      snapshots, perConn, lastMetricTime := map[], 0.0, 0;
    }

    /** Takes over the reports that are new. */
    method TakeReports(reports: seq<Report>)
      requires forall id :: id in snapshots ==> 0.0 <= snapshots[id].avg <= 1.0
      modifies this`snapshots
      ensures forall id :: id in snapshots ==> 0.0 <= snapshots[id].avg <= 1.0
      ensures snapshots == Renewed(old(snapshots), reports)
      ensures old(snapshots.Keys) <= snapshots.Keys
      ensures forall id :: id in snapshots && (forall r :: r in reports ==> r.id != id) ==>
          id in old(snapshots) && snapshots[id] == old(snapshots)[id]
      ensures forall id :: id in old(snapshots) ==>
          snapshots[id] == old(snapshots)[id] || snapshots[id].updated > old(snapshots)[id].updated
    {
      for i := 0 to |reports|
        invariant snapshots == Renewed(old(snapshots), reports[..i])
        invariant forall id :: id in snapshots ==> 0.0 <= snapshots[id].avg <= 1.0
        invariant old(snapshots.Keys) <= snapshots.Keys
        invariant forall id :: id in snapshots && (forall r :: r in reports[..i] ==> r.id != id) ==>
            id in old(snapshots) && snapshots[id] == old(snapshots)[id]
        invariant forall id :: id in old(snapshots) ==>
            snapshots[id] == old(snapshots)[id] || snapshots[id].updated > old(snapshots)[id].updated
      {
        var r := reports[i];
        assert reports[..i + 1][..i] == reports[..i];
        assert r in reports[..i + 1] && forall x :: x in reports[..i] ==> x in reports[..i + 1];
        if |r.samples| > 0 && (r.id in snapshots ==> snapshots[r.id].updated < r.at) {
          var avg, latest := CalcAvgUsage(r.samples);
          if avg >= 0.0 {
            snapshots := snapshots[r.id := Snapshot(avg, latest, r.connCount, r.at)];
          }
        }
      }
      assert reports[..|reports|] == reports;
    }

    /** Adds up the backends that count; `keys` is the order in which they were visited. */
    method SumUp() returns (usage: real, conns: int, ghost keys: seq<string>)
      ensures ListsOnce(keys, snapshots)
      ensures usage == TotalUsage(snapshots, keys) && conns == TotalConns(snapshots, keys)
      ensures usage >= 0.0 && conns >= 0
    {
      usage, conns, keys := 0.0, 0, [];
      var rest := snapshots.Keys;
      while rest != {}
        invariant rest <= snapshots.Keys && ListsOnce(keys, snapshots - rest)
        invariant usage == TotalUsage(snapshots, keys) && conns == TotalConns(snapshots, keys)
        invariant usage >= 0.0 && conns >= 0
        decreases |rest|
      {
        var k :| k in rest;
        rest := rest - {k};
        TotalsSnoc(snapshots, keys, k);
        ListsOneMore(keys, snapshots - (rest + {k}), snapshots - rest, k);
        keys := keys + [k];
        var s := snapshots[k];
        if Counts(s) {
          usage, conns := usage + s.latest, conns + s.connCount;
        }
      }
    }

    /** Estimates the usage of one connection over all snapshots. */
    method UpdateCpuPerConn() returns (ghost keys: seq<string>)
      requires perConn >= 0.0
      modifies this`perConn
      ensures perConn > 0.0
      ensures ListsOnce(keys, snapshots)
      ensures TotalConns(snapshots, keys) > 0 ==> |snapshots| > 0
      ensures perConn == PerConn(TotalUsage(snapshots, keys), TotalConns(snapshots, keys), |snapshots|, old(perConn))
    {
      var usage, conns;
      usage, conns, keys := SumUp();
      ConnsNeedBackends(snapshots, keys);
      if conns > 0 {
        var estimate := usage / conns as real;
        if estimate < MIN_CPU_PER_CONN && usage / |snapshots| as real <= 0.1 {
          estimate := perConn;
        }
        perConn := estimate;
      }
      if perConn <= 0.0 {
        perConn := MIN_CPU_PER_CONN;
      }
    }

    /** New metrics: the snapshots are renewed, expired ones dropped, the estimate follows. */
    method Refresh(reports: seq<Report>, now: Time)
      requires Valid()
      modifies this`snapshots, this`perConn
      ensures Valid()
      ensures var renewed := Renewed(old(snapshots), reports);
              snapshots == map id | id in renewed && renewed[id].updated + METRIC_EXPIRATION >= now :: renewed[id]
    {
      TakeReports(reports);
      snapshots := map id | id in snapshots && !(snapshots[id].updated + METRIC_EXPIRATION < now) :: snapshots[id];
      ghost var _ := UpdateCpuPerConn();
    }

    /** The factor's part of scoring: the state is renewed only when the metrics differ from
        those seen last, and stale metrics give no scores. With one backend, or without a query
        result, nothing happens. */
    method Update(backends: nat, result: Option<(Time, seq<Report>)>, now: Time) returns (usable: bool)
      requires Valid()
      modifies this
      ensures Valid()
      ensures backends <= 1 || result.None? ==> !usable && lastMetricTime == old(lastMetricTime)
      ensures backends <= 1 || result.None? || result.value.0 == old(lastMetricTime) ==>
          snapshots == old(snapshots) && perConn == old(perConn)
      ensures backends > 1 && result.Some? ==>
                && lastMetricTime == result.value.0 && (usable <==> now - result.value.0 <= METRIC_EXPIRATION)
      ensures backends > 1 && result.Some? && result.value.0 != old(lastMetricTime) ==>
                var renewed := Renewed(old(snapshots), result.value.1);
                snapshots == map id | id in renewed && renewed[id].updated + METRIC_EXPIRATION >= now :: renewed[id]
    {
      if backends <= 1 || result.None? {
        return false;
      }
      var (updateTime, reports) := result.value;
      if updateTime != lastMetricTime {
        lastMetricTime := updateTime;
        Refresh(reports, now);
      }
      usable := now - lastMetricTime <= METRIC_EXPIRATION;
    }

    /** Whenever the advice is positive, the estimate it divides by is positive. */
    lemma PositiveAdviceHasEstimate(perSecond: real, from: Backend, to: Backend)
      requires Valid() && Advise(snapshots, perConn, perSecond, from, to).0 == Positive
      ensures perConn > 0.0 && Advise(snapshots, perConn, perSecond, from, to).1 > 0.0
    {
      AdviceGoesDown(snapshots, perConn, perSecond, from, to);
      assert to.id in snapshots;
    }
  }
}
