/** Technical indicators over a series of bars: EMA, RSI and ATR, with the ranges they cannot leave. */
module Indicators {
  import opened Basics
  import opened Reals

  datatype Bar = Bar(high: real, low: real, close: real)

  // ---- Averages of the first n values ----

  function Sum(values: seq<real>, n: nat): real
    requires n <= |values|
  {
    if n == 0 then 0.0 else Sum(values, n - 1) + values[n - 1]
  }

  function Over(total: real, count: nat): real
    requires count >= 1
  {
    total / count as real
  }

  /** The mean of the first values, moved a fixed share of the way to each later one. */
  function ExponentialAverage(values: seq<real>, n: nat, period: nat): real
    requires 1 <= period <= n <= |values|
  {
    if n == period then Over(Sum(values, n), period)
    else Nearer(ExponentialAverage(values, n - 1, period), values[n - 1], 2.0 / (period + 1) as real)
  }

  function Nearer(before: real, value: real, share: real): real {
    (value - before) * share + before
  }

  /** Wilder's smoothing: each later value weighs one part in period. */
  function WilderAverage(values: seq<real>, n: nat, period: nat): real
    requires 1 <= period <= n <= |values|
  {
    if n == period then Over(Sum(values, n), period)
    else Smoothed(WilderAverage(values, n - 1, period), values[n - 1], period)
  }

  function Smoothed(before: real, value: real, period: nat): real
    requires period >= 1
  {
    (before * (period - 1) as real + value) / period as real
  }

  // ---- The indicators ----

  function Closes(bars: seq<Bar>): (closes: seq<real>)
    ensures |closes| == |bars|
  {
    seq(|bars|, i requires 0 <= i < |bars| => bars[i].close)
  }

  function Ema(closes: seq<real>, period: int): real {
    if |closes| < period || period <= 0 then 0.0 else ExponentialAverage(closes, |closes|, period)
  }

  function Rise(from: real, to: real): real {
    if to > from then to - from else 0.0
  }

  /** The rises from each close to the next; a fall counts as no rise. */
  function Gains(closes: seq<real>): (moves: seq<real>)
    requires closes != []
    ensures |moves| == |closes| - 1
  {
    seq(|closes| - 1, i requires 0 <= i < |closes| - 1 => Rise(closes[i], closes[i + 1]))
  }

  function Losses(closes: seq<real>): (moves: seq<real>)
    requires closes != []
    ensures |moves| == |closes| - 1
  {
    seq(|closes| - 1, i requires 0 <= i < |closes| - 1 => Rise(closes[i + 1], closes[i]))
  }

  function Strength(gain: real, loss: real): real
    requires gain >= 0.0 && loss >= 0.0
  {
    if loss == 0.0 then 100.0
    else
      QuotientSign(gain, loss);
      100.0 - 100.0 / (1.0 + gain / loss)
  }

  function AverageGain(closes: seq<real>, period: nat): (gain: real)
    requires 1 <= period < |closes|
    ensures gain >= 0.0
  {
    AverageIsNotNegative(Gains(closes), |closes| - 1, period);
    WilderAverage(Gains(closes), |closes| - 1, period)
  }

  function AverageLoss(closes: seq<real>, period: nat): (loss: real)
    requires 1 <= period < |closes|
    ensures loss >= 0.0
  {
    AverageIsNotNegative(Losses(closes), |closes| - 1, period);
    WilderAverage(Losses(closes), |closes| - 1, period)
  }

  function Rsi(closes: seq<real>, period: int): real {
    if |closes| <= period || period <= 0 then 0.0
    else Strength(AverageGain(closes, period), AverageLoss(closes, period))
  }

  function TrueRange(before: real, bar: Bar): real {
    Max(bar.high - bar.low, Max(Abs(bar.high - before), Abs(bar.low - before)))
  }

  /** The true ranges of every bar but the first, which has none. */
  function TrueRanges(bars: seq<Bar>): (ranges: seq<real>)
    requires bars != []
    ensures |ranges| == |bars| - 1
  {
    seq(|bars| - 1, i requires 0 <= i < |bars| - 1 => TrueRange(bars[i].close, bars[i + 1]))
  }

  function Atr(bars: seq<Bar>, period: int): real {
    if |bars| <= period || period <= 0 then 0.0 else WilderAverage(TrueRanges(bars), |bars| - 1, period)
  }

  // ---- Averages stay within their values ----

  predicate Within(values: seq<real>, least: real, greatest: real) {
    forall i | 0 <= i < |values| :: least <= values[i] <= greatest
  }

  /** The two are the smallest and the greatest of the values. */
  predicate AreExtremes(values: seq<real>, least: real, greatest: real) {
    least in values && greatest in values && Within(values, least, greatest)
  }

  lemma {:induction false} SumWithin(values: seq<real>, n: nat, least: real, greatest: real)
    requires n <= |values| && Within(values, least, greatest)
    ensures least * n as real <= Sum(values, n) <= greatest * n as real
  {
    if n > 0 {
      SumWithin(values, n - 1, least, greatest);
      OneMore(least, (n - 1) as real);
      OneMore(greatest, (n - 1) as real);
    }
  }

  lemma OneMore(x: real, n: real)
    ensures x * (n + 1.0) == x * n + x
  {
  }

  lemma MeanWithin(values: seq<real>, n: nat, least: real, greatest: real)
    requires 1 <= n <= |values| && Within(values, least, greatest)
    ensures least <= Over(Sum(values, n), n) <= greatest
  {
    SumWithin(values, n, least, greatest);
    QuotientWithin(Sum(values, n), n as real, least, greatest);
  }

  lemma PartOf(whole: real, share: real)
    requires whole >= 0.0 && 0.0 <= share <= 1.0
    ensures 0.0 <= whole * share <= whole
  {
    if whole > 0.0 {
      ScaledLeq(0.0, share, whole);
      ScaledLeq(share, 1.0, whole);
    }
    assert whole * share == share * whole;
  }

  /** A step of a share of at most the whole way stays between start and target. */
  lemma NearerWithin(before: real, value: real, share: real, least: real, greatest: real)
    requires least <= before <= greatest && least <= value <= greatest && 0.0 <= share <= 1.0
    ensures least <= Nearer(before, value, share) <= greatest
  {
    var way := value - before;
    var step := way * share;
    if way >= 0.0 {
      PartOf(way, share);
      assert before <= before + step <= value;
    } else {
      PartOf(-way, share);
      assert -way * share == -step;
      assert value <= before + step <= before;
    }
    assert Nearer(before, value, share) == step + before;
  }

  lemma {:induction false} ExponentialAverageWithin(values: seq<real>, n: nat, period: nat, least: real, greatest: real)
    requires 1 <= period <= n <= |values| && Within(values, least, greatest)
    ensures least <= ExponentialAverage(values, n, period) <= greatest
  {
    hide Nearer, Over;
    if n == period {
      MeanWithin(values, n, least, greatest);
    } else {
      ExponentialAverageWithin(values, n - 1, period, least, greatest);
      QuotientWithin(2.0, (period + 1) as real, 0.0, 1.0);
      NearerWithin(ExponentialAverage(values, n - 1, period), values[n - 1], 2.0 / (period + 1) as real, least, greatest);
    }
  }

  lemma SmoothedWithin(before: real, value: real, period: nat, least: real, greatest: real)
    requires period >= 1 && least <= before <= greatest && least <= value <= greatest
    ensures least <= Smoothed(before, value, period) <= greatest
  {
    var p := (period - 1) as real;
    if p > 0.0 {
      ScaledLeq(least, before, p);
      ScaledLeq(before, greatest, p);
    }
    assert least * p <= before * p <= greatest * p;
    OneMore(least, p);
    OneMore(greatest, p);
    QuotientWithin(before * p + value, period as real, least, greatest);
  }

  lemma {:induction false} WilderAverageWithin(values: seq<real>, n: nat, period: nat, least: real, greatest: real)
    requires 1 <= period <= n <= |values| && Within(values, least, greatest)
    ensures least <= WilderAverage(values, n, period) <= greatest
  {
    hide Smoothed, Over;
    if n == period {
      MeanWithin(values, n, least, greatest);
    } else {
      WilderAverageWithin(values, n - 1, period, least, greatest);
      SmoothedWithin(WilderAverage(values, n - 1, period), values[n - 1], period, least, greatest);
    }
  }

  /** The moving average never leaves the range of the closes it is taken over. */
  lemma EmaStaysWithinCloses(closes: seq<real>, period: int, least: real, greatest: real)
    requires 1 <= period <= |closes| && AreExtremes(closes, least, greatest)
    ensures least <= Ema(closes, period) <= greatest
  {
    ExponentialAverageWithin(closes, |closes|, period, least, greatest);
  }

  /** The average true range never leaves the range of the true ranges, which are never negative. */
  lemma AtrStaysWithinRanges(bars: seq<Bar>, period: int, least: real, greatest: real)
    requires 1 <= period < |bars| && AreExtremes(TrueRanges(bars), least, greatest)
    ensures 0.0 <= least <= Atr(bars, period) <= greatest
  {
    hide WilderAverage;
    var i :| 0 <= i < |bars| - 1 && TrueRanges(bars)[i] == least;
    assert least == TrueRange(bars[i].close, bars[i + 1]);
    WilderAverageWithin(TrueRanges(bars), |bars| - 1, period, least, greatest);
  }

  /** The true range is the span of the bar stretched to take in the close before it. */
  lemma TrueRangeIsSpan(before: real, bar: Bar)
    ensures bar.low <= bar.high ==> TrueRange(before, bar) == Max(bar.high, before) - Min(bar.low, before)
    ensures TrueRange(before, bar) == 0.0 <==> bar.high == before && bar.low == before
  {
  }

  // ---- Relative strength ----

  lemma QuotientSign(a: real, b: real)
    requires a >= 0.0 && b > 0.0
    ensures a / b >= 0.0
  {
  }

  lemma {:induction false} AverageIsNotNegative(values: seq<real>, n: nat, period: nat)
    requires 1 <= period <= n <= |values| && forall i | 0 <= i < |values| :: values[i] >= 0.0
    ensures WilderAverage(values, n, period) >= 0.0
  {
    hide Smoothed, Over;
    if n == period {
      SumIsNotNegative(values, n);
      QuotientSign(Sum(values, n), period as real);
      assert Over(Sum(values, n), period) >= 0.0 by { OverSign(Sum(values, n), period); }
    } else {
      AverageIsNotNegative(values, n - 1, period);
      SmoothedSign(WilderAverage(values, n - 1, period), values[n - 1], period);
    }
  }

  lemma {:induction false} SumIsNotNegative(values: seq<real>, n: nat)
    requires n <= |values| && forall i | 0 <= i < |values| :: values[i] >= 0.0
    ensures Sum(values, n) >= 0.0
  {
    if n > 0 {
      SumIsNotNegative(values, n - 1);
    }
  }

  lemma OverSign(total: real, count: nat)
    requires total >= 0.0 && count >= 1
    ensures Over(total, count) >= 0.0
  {
    QuotientSign(total, count as real);
  }

  lemma SmoothedSign(before: real, value: real, period: nat)
    requires before >= 0.0 && value >= 0.0 && period >= 1
    ensures Smoothed(before, value, period) >= 0.0
  {
    SmoothedWithin(before, value, period, 0.0, Max(before, value));
  }

  /** The strength is the share of the gains in all movement. */
  lemma StrengthIsShare(gain: real, loss: real)
    requires gain >= 0.0 && loss > 0.0
    ensures Strength(gain, loss) * (gain + loss) == 100.0 * gain
  {
    QuotientSign(gain, loss);
    var ratio := gain / loss;
    assert ratio * loss == gain;
    var part := 100.0 / (1.0 + ratio);
    assert part * (1.0 + ratio) == 100.0;
    assert (1.0 + ratio) * loss == gain + loss;
    assert part * (gain + loss) == part * (1.0 + ratio) * loss == 100.0 * loss;
    assert Strength(gain, loss) == 100.0 - part;
    assert (100.0 - part) * (gain + loss) == 100.0 * (gain + loss) - part * (gain + loss);
  }

  lemma RsiIsAPercentage(closes: seq<real>, period: int)
    ensures 0.0 <= Rsi(closes, period) <= 100.0
  {
    hide Strength;
    if |closes| > period && period > 0 {
      StrengthWithin(AverageGain(closes, period), AverageLoss(closes, period));
    }
  }

  lemma StrengthWithin(gain: real, loss: real)
    requires gain >= 0.0 && loss >= 0.0
    ensures 0.0 <= Strength(gain, loss) <= 100.0
  {
    if loss > 0.0 {
      StrengthIsShare(gain, loss);
      var s, all := Strength(gain, loss), gain + loss;
      ScaledLeq(0.0, s, all);
      ScaledLeq(s, 100.0, all);
    }
  }

  // ---- Rescaling and mirroring the closes ----

  /** The second series is the first with every value multiplied by the factor. */
  predicate AreScaled(values: seq<real>, values': seq<real>, c: real) {
    |values'| == |values| && forall i | 0 <= i < |values| :: values'[i] == c * values[i]
  }

  lemma {:induction false} SumScales(values: seq<real>, values': seq<real>, n: nat, c: real)
    requires n <= |values| && AreScaled(values, values', c)
    ensures Sum(values', n) == c * Sum(values, n)
  {
    if n > 0 {
      SumScales(values, values', n - 1, c);
    }
  }

  lemma {:induction false} WilderAverageScales(values: seq<real>, values': seq<real>, n: nat, c: real, period: nat)
    requires 1 <= period <= n <= |values| && AreScaled(values, values', c)
    ensures WilderAverage(values', n, period) == c * WilderAverage(values, n, period)
  {
    hide Smoothed, Over;
    if n == period {
      SumScales(values, values', n, c);
      OverScales(Sum(values, n), Sum(values', n), c, n);
    } else {
      WilderAverageScales(values, values', n - 1, c, period);
      SmoothedScales(WilderAverage(values, n - 1, period), values[n - 1],
                     WilderAverage(values', n - 1, period), values'[n - 1], c, period);
    }
  }

  lemma OverScales(total: real, total': real, c: real, count: nat)
    requires count >= 1 && total' == c * total
    ensures Over(total', count) == c * Over(total, count)
  {
    QuotientScales(total, c, count as real);
  }

  lemma SmoothedScales(before: real, value: real, before': real, value': real, c: real, period: nat)
    requires period >= 1 && before' == c * before && value' == c * value
    ensures Smoothed(before', value', period) == c * Smoothed(before, value, period)
  {
    var p := (period - 1) as real;
    assert (c * before) * p == c * (before * p);
    var x := before * p + value;
    assert before' * p + value' == c * x;
    QuotientScales(x, c, period as real);
  }

  lemma StrengthScales(gain: real, loss: real, gain': real, loss': real, c: real)
    requires gain >= 0.0 && loss >= 0.0 && gain' >= 0.0 && loss' >= 0.0
    requires c > 0.0 && gain' == c * gain && loss' == c * loss
    ensures Strength(gain', loss') == Strength(gain, loss)
  {
    ProductSign(loss, c);
    if loss > 0.0 {
      QuotientTimes(gain, loss);
      var ratio := gain / loss;
      assert ratio * (c * loss) == c * (ratio * loss);
      QuotientIs(gain', loss', ratio);
    }
  }

  /** The second series is the first in other units, from another zero. */
  predicate AreRescaled(closes: seq<real>, closes': seq<real>, c: real, d: real) {
    |closes'| == |closes| && forall i | 0 <= i < |closes| :: closes'[i] == c * closes[i] + d
  }

  /** Multiplying every close by a positive factor and adding a constant leaves the strength as it was. */
  lemma RsiIgnoresScale(closes: seq<real>, closes': seq<real>, c: real, d: real, period: int)
    requires c > 0.0 && AreRescaled(closes, closes', c, d)
    ensures Rsi(closes', period) == Rsi(closes, period)
  {
    hide Strength, WilderAverage, Gains, Losses;
    if |closes| > period && period > 0 {
      var n := |closes| - 1;
      GainsScale(closes, closes', c, d);
      LossesScale(closes, closes', c, d);
      WilderAverageScales(Gains(closes), Gains(closes'), n, c, period);
      WilderAverageScales(Losses(closes), Losses(closes'), n, c, period);
      StrengthScales(AverageGain(closes, period), AverageLoss(closes, period),
                     AverageGain(closes', period), AverageLoss(closes', period), c);
    }
  }

  lemma GainsScale(closes: seq<real>, closes': seq<real>, c: real, d: real)
    requires c > 0.0 && closes != [] && AreRescaled(closes, closes', c, d)
    ensures |Gains(closes)| == |closes| - 1 && AreScaled(Gains(closes), Gains(closes'), c)
  {
    hide Rise;
    var gains, gains' := Gains(closes), Gains(closes');
    forall i | 0 <= i < |gains|
      ensures gains'[i] == c * gains[i]
    {
      RiseScales(closes[i], closes[i + 1], closes'[i], closes'[i + 1], c, d);
    }
  }

  lemma LossesScale(closes: seq<real>, closes': seq<real>, c: real, d: real)
    requires c > 0.0 && closes != [] && AreRescaled(closes, closes', c, d)
    ensures |Losses(closes)| == |closes| - 1 && AreScaled(Losses(closes), Losses(closes'), c)
  {
    hide Rise;
    var losses, losses' := Losses(closes), Losses(closes');
    forall i | 0 <= i < |losses|
      ensures losses'[i] == c * losses[i]
    {
      RiseScales(closes[i + 1], closes[i], closes'[i + 1], closes'[i], c, d);
    }
  }

  lemma RiseScales(from: real, to: real, from': real, to': real, c: real, d: real)
    requires c > 0.0 && from' == c * from + d && to' == c * to + d
    ensures Rise(from', to') == c * Rise(from, to)
  {
    ScaledLeq(from, to, c);
    ScaledLeq(to, from, c);
    assert c * to - c * from == c * (to - from);
  }

  /** Turning the series upside down turns the strength around exactly when it has moved at all; a series that
      never moved has strength 100 either way. */
  lemma RsiMirrors(closes: seq<real>, closes': seq<real>, d: real, period: int)
    requires 1 <= period < |closes| && |closes'| == |closes|
    requires forall i | 0 <= i < |closes| :: closes'[i] == d - closes[i]
    ensures Rsi(closes', period) == 100.0 - Rsi(closes, period)
      <==> AverageGain(closes, period) > 0.0 || AverageLoss(closes, period) > 0.0
  {
    hide Strength, WilderAverage;
    assert Gains(closes') == Losses(closes) && Losses(closes') == Gains(closes);
    MirroredShares(AverageGain(closes, period), AverageLoss(closes, period));
  }

  lemma MirroredShares(gain: real, loss: real)
    requires gain >= 0.0 && loss >= 0.0
    ensures Strength(loss, gain) == 100.0 - Strength(gain, loss) <==> gain > 0.0 || loss > 0.0
  {
    if gain > 0.0 && loss > 0.0 {
      SharesAddUp(gain, loss);
    } else if loss > 0.0 {
      NoShare(loss);
    } else if gain > 0.0 {
      NoShare(gain);
    }
  }

  lemma NoShare(loss: real)
    requires loss > 0.0
    ensures Strength(0.0, loss) == 0.0 && Strength(loss, 0.0) == 100.0
  {
    QuotientIs(0.0, loss, 0.0);
  }

  lemma SharesAddUp(gain: real, loss: real)
    requires gain > 0.0 && loss > 0.0
    ensures Strength(loss, gain) == 100.0 - Strength(gain, loss)
  {
    StrengthIsShare(gain, loss);
    StrengthIsShare(loss, gain);
    var there, back, all := Strength(gain, loss), Strength(loss, gain), gain + loss;
    hide Strength;
    assert (there + back) * all == there * all + back * all;
    SameFactor(there + back, 100.0, all);
  }

  // ---- The loops ----

  method EMA(bars: seq<Bar>, period: int) returns (ema: real)
    ensures ema == Ema(Closes(bars), period)
  {
    if |bars| < period || period <= 0 {
      return 0.0;
    }
    hide Over, Nearer;
    ghost var closes := Closes(bars);
    var sum := 0.0;
    for i := 0 to period
      invariant sum == Sum(closes, i)
    {
      sum := sum + bars[i].close;
    }
    ema := Over(sum, period);
    var multiplier := 2.0 / (period + 1) as real;
    for i := period to |bars|
      invariant ema == ExponentialAverage(closes, i, period)
    {
      ema := Nearer(ema, bars[i].close, multiplier);
    }
  }

  lemma MoveAt(closes: seq<real>, i: nat)
    requires 1 <= i < |closes|
    ensures |Gains(closes)| == |Losses(closes)| == |closes| - 1
    ensures Gains(closes)[i - 1] == Rise(closes[i - 1], closes[i])
    ensures Losses(closes)[i - 1] == Rise(closes[i], closes[i - 1])
  {
  }

  method FirstMoves(bars: seq<Bar>, period: nat) returns (gains: real, losses: real)
    requires 1 <= period < |bars|
    ensures gains == Sum(Gains(Closes(bars)), period) && losses == Sum(Losses(Closes(bars)), period)
  {
    hide Gains, Losses;
    ghost var closes := Closes(bars);
    ghost var up, down := Gains(closes), Losses(closes);
    gains, losses := 0.0, 0.0;
    for i := 1 to period + 1
      invariant gains == Sum(up, i - 1) && losses == Sum(down, i - 1)
    {
      MoveAt(closes, i);
      var change := bars[i].close - bars[i - 1].close;
      if change > 0.0 {
        gains := gains + change;
      } else {
        losses := losses + -change;
      }
    }
  }

  method RSI(bars: seq<Bar>, period: int) returns (rsi: real)
    ensures rsi == Rsi(Closes(bars), period)
  {
    if |bars| <= period || period <= 0 {
      return 0.0;
    }
    hide Sum, Over, Smoothed, Strength, Gains, Losses;
    ghost var closes := Closes(bars);
    ghost var up, down := Gains(closes), Losses(closes);
    var gains, losses := FirstMoves(bars, period);
    var avgGain, avgLoss := Over(gains, period), Over(losses, period);
    for i := period + 1 to |bars|
      invariant avgGain == WilderAverage(up, i - 1, period)
      invariant avgLoss == WilderAverage(down, i - 1, period)
    {
      MoveAt(closes, i);
      var change := bars[i].close - bars[i - 1].close;
      if change > 0.0 {
        avgGain := Smoothed(avgGain, change, period);
        avgLoss := Smoothed(avgLoss, 0.0, period);
      } else {
        avgGain := Smoothed(avgGain, 0.0, period);
        avgLoss := Smoothed(avgLoss, -change, period);
      }
    }
    assert avgGain == AverageGain(closes, period) && avgLoss == AverageLoss(closes, period);
    rsi := Strength(avgGain, avgLoss);
  }

  /** One slot for each bar; the first stays zero and is never read. */
  method TrueRangeSeries(bars: seq<Bar>) returns (ranges: array<real>)
    requires bars != []
    ensures fresh(ranges) && ranges.Length == |bars| && ranges[..] == [0.0] + TrueRanges(bars)
  {
    ranges := new real[|bars|](_ => 0.0);
    for i := 1 to |bars|
      invariant ranges[0] == 0.0
      invariant forall j | 0 <= j < i - 1 :: ranges[j + 1] == TrueRanges(bars)[j]
    {
      var high, low, before := bars[i].high, bars[i].low, bars[i - 1].close;
      ranges[i] := Max(high - low, Max(Abs(high - before), Abs(low - before)));
    }
  }

  method ATR(bars: seq<Bar>, period: int) returns (atr: real)
    ensures atr == Atr(bars, period)
  {
    if |bars| <= period || period <= 0 {
      return 0.0;
    }
    hide Over, Smoothed;
    var ranges := TrueRangeSeries(bars);
    ghost var rs := TrueRanges(bars);
    var sum := 0.0;
    for i := 1 to period + 1
      invariant ranges[..] == [0.0] + rs && sum == Sum(rs, i - 1)
    {
      assert ranges[..][i] == rs[i - 1];
      sum := sum + ranges[i];
    }
    atr := Over(sum, period);
    for i := period + 1 to ranges.Length
      invariant ranges[..] == [0.0] + rs && atr == WilderAverage(rs, i - 1, period)
    {
      assert ranges[..][i] == rs[i - 1];
      atr := Smoothed(atr, ranges[i], period);
    }
  }
}
