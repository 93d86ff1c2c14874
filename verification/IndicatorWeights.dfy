/** How much each value counts in the two averages: a later one by a fixed share that fades by the rest of it with
    every value after, and the first ones equally. */
module IndicatorWeights {
  import opened Basics
  import opened Reals
  import opened Indicators

  function Power(base: real, n: nat): real {
    if n == 0 then 1.0 else Power(base, n - 1) * base
  }

  /** An average that starts from the mean of the first values and moves a share of the way to each later one. */
  function SharedAverage(values: seq<real>, n: nat, period: nat, share: real): real
    requires 1 <= period <= n <= |values|
  {
    if n == period then Over(Sum(values, n), period)
    else Nearer(SharedAverage(values, n - 1, period, share), values[n - 1], share)
  }

  lemma {:induction false} ExponentialIsShared(values: seq<real>, n: nat, period: nat, share: real)
    requires 1 <= period <= n <= |values| && share * (period + 1) as real == 2.0
    ensures ExponentialAverage(values, n, period) == SharedAverage(values, n, period, share)
  {
    hide Nearer, Sum, Over;
    if n > period {
      ExponentialIsShared(values, n - 1, period, share);
      QuotientIs(2.0, (period + 1) as real, share);
    }
  }

  lemma SmoothedIsNearer(before: real, value: real, period: nat, share: real)
    requires period >= 1 && share * period as real == 1.0
    ensures Smoothed(before, value, period) == Nearer(before, value, share)
  {
    var p := period as real;
    var next := Nearer(before, value, share);
    assert next * p == (value - before) * (share * p) + before * p;
    assert before * (period - 1) as real == before * p - before;
    QuotientIs(before * (period - 1) as real + value, p, next);
  }

  lemma {:induction false} WilderIsShared(values: seq<real>, n: nat, period: nat, share: real)
    requires 1 <= period <= n <= |values| && share * period as real == 1.0
    ensures WilderAverage(values, n, period) == SharedAverage(values, n, period, share)
  {
    hide Nearer, Smoothed, Sum, Over;
    if n > period {
      WilderIsShared(values, n - 1, period, share);
      SmoothedIsNearer(SharedAverage(values, n - 1, period, share), values[n - 1], period, share);
    }
  }

  lemma {:induction false} SumChanges(values: seq<real>, k: nat, d: real, n: nat)
    requires k < |values| && n <= |values|
    ensures Sum(values[k := values[k] + d], n) == Sum(values, n) + if k < n then d else 0.0
  {
    if n > 0 {
      SumChanges(values, k, d, n - 1);
    }
  }

  lemma OverChanges(total: real, d: real, count: nat, part: real)
    requires count >= 1 && part * count as real == 1.0
    ensures Over(total + d, count) == Over(total, count) + d * part
  {
    var n := count as real;
    QuotientTimes(total, n);
    assert (total / n + d * part) * n == total / n * n + d * (part * n);
    QuotientIs(total + d, n, total / n + d * part);
  }

  /** What a change of the k-th value does to an average of n values: it counts by the share, or among the first ones
      by an equal part, and by what later values leave of that. */
  function Influence(k: nat, n: nat, period: nat, share: real, part: real): real
    requires k < n && period <= n
  {
    if k < period then part * Power(1.0 - share, n - period) else share * Power(1.0 - share, n - 1 - k)
  }

  lemma NearerChanges(before: real, value: real, share: real, d: real)
    ensures Nearer(before + d, value, share) == Nearer(before, value, share) + d * (1.0 - share)
    ensures Nearer(before, value + d, share) == Nearer(before, value, share) + d * share
  {
  }

  lemma InfluenceFades(d: real, k: nat, n: nat, period: nat, share: real, part: real)
    requires k < n && period <= n
    ensures (d * Influence(k, n, period, share, part)) * (1.0 - share) == d * Influence(k, n + 1, period, share, part)
  {
    var weight, left := if k < period then part else share, if k < period then n - period else n - 1 - k;
    var p := Power(1.0 - share, left);
    assert Power(1.0 - share, left + 1) == p * (1.0 - share);
    assert (d * (weight * p)) * (1.0 - share) == d * (weight * (p * (1.0 - share)));
  }

  lemma FirstInfluence(k: nat, n: nat, period: nat, share: real, part: real)
    requires k < n && period <= n
    ensures n == period ==> Influence(k, n, period, share, part) == part
    ensures k >= period && k == n - 1 ==> Influence(k, n, period, share, part) == share
  {
  }

  /** The values with the k-th raised by d. */
  function Raised(values: seq<real>, k: nat, d: real): (raised: seq<real>)
    requires k < |values|
    ensures |raised| == |values|
  {
    values[k := values[k] + d]
  }

  /** What the raise adds to an average of the first n values. */
  function Carried(k: nat, d: real, n: nat, period: nat, share: real, part: real): real
    requires period <= n
  {
    if k < n then d * Influence(k, n, period, share, part) else 0.0
  }

  lemma CarryOne(before: real, value: real, k: nat, d: real, n: nat, period: nat, share: real, part: real)
    requires period < n
    ensures Nearer(before + Carried(k, d, n - 1, period, share, part), if k == n - 1 then value + d else value, share)
         == Nearer(before, value, share) + Carried(k, d, n, period, share, part)
  {
    hide Nearer, Influence;
    if k < n - 1 {
      var moved := d * Influence(k, n - 1, period, share, part);
      NearerChanges(before, value, share, moved);
      InfluenceFades(d, k, n - 1, period, share, part);
    } else if k == n - 1 {
      NearerChanges(before, value, share, d);
      FirstInfluence(k, n, period, share, part);
    }
  }

  lemma CarryFirst(values: seq<real>, k: nat, d: real, period: nat, share: real, part: real)
    requires k < |values| && 1 <= period <= |values| && part * period as real == 1.0
    ensures Over(Sum(Raised(values, k, d), period), period)
         == Over(Sum(values, period), period) + Carried(k, d, period, period, share, part)
  {
    hide Over, Influence;
    SumChanges(values, k, d, period);
    if k < period {
      OverChanges(Sum(values, period), d, period, part);
      FirstInfluence(k, period, period, share, part);
    }
  }

  lemma {:induction false} ChangeCarries(values: seq<real>, k: nat, d: real, n: nat, period: nat, share: real, part: real)
    requires k < |values| && 1 <= period <= n <= |values| && part * period as real == 1.0
    ensures SharedAverage(Raised(values, k, d), n, period, share)
         == SharedAverage(values, n, period, share) + Carried(k, d, n, period, share, part)
  {
    hide Nearer, Over, Sum, Carried;
    if n == period {
      CarryFirst(values, k, d, period, share, part);
    } else {
      ChangeCarries(values, k, d, n - 1, period, share, part);
      CarryOne(SharedAverage(values, n - 1, period, share), values[n - 1], k, d, n, period, share, part);
      assert Raised(values, k, d)[n - 1] == if k == n - 1 then values[n - 1] + d else values[n - 1];
    }
  }

  /** Raising one close by d raises the exponential average by d times two parts in period plus one, or for the first
      ones by d shared equally, faded by what each later close leaves. */
  lemma EmaWeights(closes: seq<real>, k: nat, d: real, period: nat, share: real, part: real)
    requires 1 <= period <= |closes| && k < |closes|
    requires share * (period + 1) as real == 2.0 && part * period as real == 1.0
    ensures Ema(Raised(closes, k, d), period)
         == Ema(closes, period) + d * (if k < period then part * Power(1.0 - share, |closes| - period)
                                       else share * Power(1.0 - share, |closes| - 1 - k))
  {
    hide SharedAverage, ExponentialAverage, Power;
    var closes' := Raised(closes, k, d);
    ExponentialIsShared(closes, |closes|, period, share);
    ExponentialIsShared(closes', |closes|, period, share);
    ChangeCarries(closes, k, d, |closes|, period, share, part);
  }

  /** Raising one value by d raises Wilder's average of the values by d times one part in period, for the first ones
      and the later ones alike, faded by what each later value leaves. */
  lemma WilderWeights(values: seq<real>, k: nat, d: real, period: nat, part: real)
    requires 1 <= period <= |values| && k < |values| && part * period as real == 1.0
    ensures WilderAverage(Raised(values, k, d), |values|, period)
         == WilderAverage(values, |values|, period)
            + d * (part * Power(1.0 - part, if k < period then |values| - period else |values| - 1 - k))
  {
    hide SharedAverage, WilderAverage, Power;
    var values' := Raised(values, k, d);
    WilderIsShared(values, |values|, period, part);
    WilderIsShared(values', |values|, period, part);
    ChangeCarries(values, k, d, |values|, period, part, part);
  }
}
