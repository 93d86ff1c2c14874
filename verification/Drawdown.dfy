/** The decision log's drawdown: one pass with a running peak finds the worst fall of any pair of times. */
module Drawdown {
  import opened Basics
  import opened Reals

  /** The fall from one equity to another, as a percentage of the first. */
  function Fall(from: real, to: real): real
    requires from > 0.0
  {
    (from - to) / from * 100.0
  }

  predicate AllPositive(equities: seq<real>) {
    forall i | 0 <= i < |equities| :: equities[i] > 0.0
  }

  /** The fall of some earlier equity to a later one, or of an equity to itself. */
  predicate IsFall(equities: seq<real>, fall: real)
    requires AllPositive(equities)
  {
    exists i, j :: 0 <= i <= j < |equities| && fall == Fall(equities[i], equities[j])
  }

  /** The greatest of all falls. */
  predicate IsWorstFall(equities: seq<real>, worst: real)
    requires AllPositive(equities)
  {
    && IsFall(equities, worst)
    && forall i, j | 0 <= i <= j < |equities| :: Fall(equities[i], equities[j]) <= worst
  }

  predicate IsPeak(equities: seq<real>, peak: real) {
    peak in equities && forall i | 0 <= i < |equities| :: equities[i] <= peak
  }

  /** From a higher start the fall to the same equity is greater. */
  lemma HigherFallsFurther(low: real, high: real, to: real)
    requires 0.0 < low <= high && to >= 0.0
    ensures Fall(low, to) <= Fall(high, to)
  {
    QuotientShrinks(to, low, high);
    assert (low - to) / low == 1.0 - to / low by { QuotientOfDifference(low, to); }
    assert (high - to) / high == 1.0 - to / high by { QuotientOfDifference(high, to); }
  }

  lemma QuotientOfDifference(a: real, b: real)
    requires a > 0.0
    ensures (a - b) / a == 1.0 - b / a
  {
    assert (a - b) / a == a / a - b / a;
  }

  lemma QuotientShrinks(x: real, low: real, high: real)
    requires 0.0 < low <= high && x >= 0.0
    ensures x / high <= x / low
  {
    QuotientTimes(x, low);
    if x > 0.0 {
      ScaledLeq(low, high, x / low);
    }
    QuotientWithin(x, high, 0.0, x / low);
  }

  lemma WorstSoFar(equities: seq<real>, peak: real, worst: real)
    requires |equities| > 1 && AllPositive(equities)
    requires IsPeak(equities, peak)
    requires IsWorstFall(equities[..|equities| - 1], worst)
    ensures IsWorstFall(equities, Max(worst, Fall(peak, equities[|equities| - 1])))
  {
    var n := |equities| - 1;
    var last := equities[n];
    var now := Max(worst, Fall(peak, last));
    var k :| 0 <= k <= n && equities[k] == peak;
    if now == worst {
      var i, j :| 0 <= i <= j < n && worst == Fall(equities[..n][i], equities[..n][j]);
      assert now == Fall(equities[i], equities[j]);
    } else {
      assert now == Fall(equities[k], equities[n]);
    }
    forall i, j | 0 <= i <= j <= n
      ensures Fall(equities[i], equities[j]) <= now
    {
      if j < n {
        assert Fall(equities[..n][i], equities[..n][j]) <= worst;
      } else {
        HigherFallsFurther(equities[i], peak, last);
      }
    }
  }

  /** The one-pass drawdown is the greatest fall over all pairs of times, and is never negative. */
  method MaxDrawdown(equities: seq<real>) returns (worst: real)
    requires AllPositive(equities)
    ensures equities == [] ==> worst == 0.0
    ensures equities != [] ==> IsWorstFall(equities, worst)
    ensures worst >= 0.0
  {
    if equities == [] {
      return 0.0;
    }
    hide IsPeak, IsWorstFall, Fall;
    var peak := equities[0];
    worst := 0.0;
    for n := 0 to |equities|
      invariant PassedSoFar(equities, n, peak, worst)
    {
      ghost var before, worstBefore := peak, worst;
      if equities[n] > peak {
        peak := equities[n];
      }
      var drawdown := (peak - equities[n]) / peak * 100.0;
      if drawdown > worst {
        worst := drawdown;
      }
      FallIs(peak, equities[n]);
      OneMoreEquity(equities, n, before, worstBefore);
    }
    assert equities[..|equities|] == equities;
  }

  /** The running peak and the worst fall of the first n equities; before any, the first one and no fall. */
  predicate PassedSoFar(equities: seq<real>, n: nat, peak: real, worst: real)
    requires AllPositive(equities) && n <= |equities| && equities != []
  {
    && peak > 0.0 && worst >= 0.0
    && (if n == 0 then peak == equities[0] && worst == 0.0
        else IsPeak(equities[..n], peak) && IsWorstFall(equities[..n], worst))
  }

  lemma OneMoreEquity(equities: seq<real>, n: nat, peak: real, worst: real)
    requires AllPositive(equities) && n < |equities| && PassedSoFar(equities, n, peak, worst)
    ensures Max(peak, equities[n]) > 0.0
    ensures PassedSoFar(equities, n + 1, Max(peak, equities[n]), Max(worst, Fall(Max(peak, equities[n]), equities[n])))
  {
    hide IsPeak, IsWorstFall, Fall;
    var upTo := equities[..n + 1];
    assert upTo[..n] == equities[..n] && upTo[n] == equities[n];
    if n == 0 {
      SingleEquity(upTo);
    } else {
      PeakSoFar(upTo, peak);
      WorstSoFar(upTo, Max(peak, equities[n]), worst);
    }
  }

  lemma FallIs(from: real, to: real)
    requires from > 0.0
    ensures Fall(from, to) == (from - to) / from * 100.0
  {
  }

  lemma SingleEquity(equities: seq<real>)
    requires |equities| == 1 && AllPositive(equities)
    ensures IsPeak(equities, equities[0]) && IsWorstFall(equities, 0.0) && Fall(equities[0], equities[0]) == 0.0
  {
    assert 0.0 == Fall(equities[0], equities[0]);
  }

  lemma PeakSoFar(equities: seq<real>, before: real)
    requires |equities| > 1 && IsPeak(equities[..|equities| - 1], before)
    ensures IsPeak(equities, Max(before, equities[|equities| - 1]))
  {
    var n := |equities| - 1;
    forall i | 0 <= i <= n
      ensures equities[i] <= Max(before, equities[n])
    {
      if i < n { assert equities[..n][i] <= before; }
    }
  }

  /** A series has one worst fall, so the drawdown is determined by the equities alone. */
  lemma WorstFallIsUnique(equities: seq<real>, a: real, b: real)
    requires AllPositive(equities) && IsWorstFall(equities, a) && IsWorstFall(equities, b)
    ensures a == b
  {
    var i, j :| 0 <= i <= j < |equities| && a == Fall(equities[i], equities[j]);
    var k, l :| 0 <= k <= l < |equities| && b == Fall(equities[k], equities[l]);
  }

  lemma FallInPercent(from: real, to: real, fall: real)
    requires from > 0.0
    ensures Fall(from, to) == fall <==> fall * from == 100.0 * (from - to)
    ensures Fall(from, to) <= fall <==> 100.0 * (from - to) <= fall * from
  {
    var part := (from - to) / from;
    QuotientTimes(from - to, from);
    assert part * 100.0 * from == 100.0 * (part * from);
    ScaledLeq(part * 100.0, fall, from);
    ScaledLeq(fall, part * 100.0, from);
  }

  /** The greatest fall in percent: a hundred times what was lost is nowhere more than it times the earlier equity,
      and somewhere just that. */
  lemma WorstFallInPercent(equities: seq<real>, worst: real)
    requires AllPositive(equities)
    ensures IsWorstFall(equities, worst) <==>
              && (exists i, j :: 0 <= i <= j < |equities| && worst * equities[i] == 100.0 * (equities[i] - equities[j]))
              && forall i, j | 0 <= i <= j < |equities| :: 100.0 * (equities[i] - equities[j]) <= worst * equities[i]
  {
    hide Fall;
    forall i, j | 0 <= i <= j < |equities|
      ensures Fall(equities[i], equities[j]) == worst <==> worst * equities[i] == 100.0 * (equities[i] - equities[j])
      ensures Fall(equities[i], equities[j]) <= worst <==> 100.0 * (equities[i] - equities[j]) <= worst * equities[i]
    {
      FallInPercent(equities[i], equities[j], worst);
    }
  }
}
