/** Bar aggregation: consecutive bars are merged into wider bars of a fixed number of bars each. */
module Klines {
  import opened Basics

  datatype Kline = Kline(openTime: int, open: real, high: real, low: real, close: real, volume: real, closeTime: int)

  // ---- What a merged bar is ----

  function Highest(bars: seq<Kline>): real
    requires bars != []
  {
    var n := |bars| - 1;
    if n == 0 then bars[0].high else Max(Highest(bars[..n]), bars[n].high)
  }

  function Lowest(bars: seq<Kline>): real
    requires bars != []
  {
    var n := |bars| - 1;
    if n == 0 then bars[0].low else Min(Lowest(bars[..n]), bars[n].low)
  }

  function Volume(bars: seq<Kline>): real {
    if bars == [] then 0.0 else Volume(bars[..|bars| - 1]) + bars[|bars| - 1].volume
  }

  /** One bar in place of several: opens with the first, closes with the last, spans and sums them all. */
  function Merged(bars: seq<Kline>): Kline
    requires bars != []
  {
    var first, last := bars[0], bars[|bars| - 1];
    Kline(first.openTime, first.open, Highest(bars), Lowest(bars), last.close, Volume(bars), last.closeTime)
  }

  /** The bars merged bucket by bucket; the last bucket may be short. */
  function Bucketed(bars: seq<Kline>, bucket: nat): seq<Kline>
    requires bucket >= 1
  {
    if bars == [] then []
    else if |bars| <= bucket then [Merged(bars)]
    else [Merged(bars[..bucket])] + Bucketed(bars[bucket..], bucket)
  }

  /** A bucket of one bar or less leaves the bars alone. */
  function Aggregated(bars: seq<Kline>, bucket: int): seq<Kline> {
    if bucket <= 1 then bars else Bucketed(bars, bucket)
  }

  /** What is left of the bars from index i on. */
  function From(bars: seq<Kline>, i: nat): seq<Kline> {
    if i < |bars| then bars[i..] else []
  }

  lemma FirstBucket(bars: seq<Kline>, i: nat, bucket: nat)
    requires i < |bars| && bucket >= 1
    ensures var end := if i + bucket > |bars| then |bars| else i + bucket;
      Bucketed(From(bars, i), bucket) == [Merged(bars[i..end])] + Bucketed(From(bars, i + bucket), bucket)
  {
    if i + bucket < |bars| {
      assert bars[i..][..bucket] == bars[i..i + bucket];
      assert bars[i..][bucket..] == bars[i + bucket..];
    } else {
      assert bars[i..] == bars[i..|bars|];
    }
  }

  /** What is out, followed by the buckets of what is left from index i on, is the aggregation. */
  predicate DoneTo(out: seq<Kline>, bars: seq<Kline>, i: nat, bucket: nat) {
    bucket >= 1 && out + Bucketed(From(bars, i), bucket) == Bucketed(bars, bucket)
  }

  lemma NoBars(bucket: int)
    ensures Aggregated([], bucket) == []
  {
  }

  lemma NothingDone(bars: seq<Kline>, bucket: nat)
    requires bucket >= 1
    ensures DoneTo([], bars, 0, bucket)
  {
  }

  lemma BucketDone(out: seq<Kline>, bars: seq<Kline>, i: nat, end: nat, bucket: nat)
    requires i < |bars| && DoneTo(out, bars, i, bucket) && end == if i + bucket > |bars| then |bars| else i + bucket
    ensures DoneTo(out + [Merged(bars[i..end])], bars, i + bucket, bucket)
  {
    hide Merged, Bucketed, From;
    FirstBucket(bars, i, bucket);
    var bar := Merged(bars[i..end]);
    var rest := Bucketed(From(bars, i + bucket), bucket);
    assert out + ([bar] + rest) == out + [bar] + rest;
  }

  lemma AllDone(out: seq<Kline>, bars: seq<Kline>, i: nat, bucket: nat)
    requires i >= |bars| && DoneTo(out, bars, i, bucket)
    ensures out == Bucketed(bars, bucket)
  {
  }

  // ---- The loop ----

  method MergeChunk(chunk: seq<Kline>) returns (bar: Kline)
    requires chunk != []
    ensures bar == Merged(chunk)
  {
    var high, low, volume := chunk[0].high, chunk[0].low, 0.0;
    for i := 0 to |chunk|
      invariant i == 0 ==> high == chunk[0].high && low == chunk[0].low
      invariant i > 0 ==> high == Highest(chunk[..i]) && low == Lowest(chunk[..i])
      invariant volume == Volume(chunk[..i])
    {
      assert chunk[..i + 1][..i] == chunk[..i];
      if chunk[i].high > high {
        high := chunk[i].high;
      }
      if chunk[i].low < low {
        low := chunk[i].low;
      }
      volume := volume + chunk[i].volume;
    }
    assert chunk[..|chunk|] == chunk;
    var first, last := chunk[0], chunk[|chunk| - 1];
    bar := Kline(first.openTime, first.open, high, low, last.close, volume, last.closeTime);
  }

  method AggregateKlines(bars: seq<Kline>, bucket: int) returns (out: seq<Kline>)
    ensures out == Aggregated(bars, bucket)
  {
    hide Merged, Bucketed, DoneTo, From, Highest, Lowest, Volume;
    NoBars(bucket);
    if bucket <= 1 || bars == [] {
      return bars;
    }
    NothingDone(bars, bucket);
    out := [];
    var i := 0;
    while i < |bars|
      invariant 0 <= i
      invariant DoneTo(out, bars, i, bucket)
    {
      var end := i + bucket;
      if end > |bars| {
        end := |bars|;
      }
      var bar := MergeChunk(bars[i..end]);
      BucketDone(out, bars, i, end, bucket);
      out := out + [bar];
      i := i + bucket;
    }
    AllDone(out, bars, i, bucket);
  }

  // ---- Joining bars ----

  lemma {:induction false} JoinedExtremes(left: seq<Kline>, right: seq<Kline>)
    requires left != [] && right != []
    ensures Highest(left + right) == Max(Highest(left), Highest(right))
    ensures Lowest(left + right) == Min(Lowest(left), Lowest(right))
  {
    var n := |right| - 1;
    assert (left + right)[..|left| + n] == left + right[..n];
    if n == 0 {
      assert left + right[..n] == left;
    } else {
      JoinedExtremes(left, right[..n]);
    }
  }

  lemma {:induction false} JoinedVolume(left: seq<Kline>, right: seq<Kline>)
    ensures Volume(left + right) == Volume(left) + Volume(right)
  {
    if right == [] {
      assert left + right == left;
    } else {
      var n := |right| - 1;
      assert (left + right)[..|left| + n] == left + right[..n];
      JoinedVolume(left, right[..n]);
    }
  }

  /** Two consecutive bars as one. */
  function Joined(x: Kline, y: Kline): Kline {
    Kline(x.openTime, x.open, Max(x.high, y.high), Min(x.low, y.low), y.close, x.volume + y.volume, y.closeTime)
  }

  lemma MergedInTwo(left: seq<Kline>, right: seq<Kline>)
    requires left != [] && right != []
    ensures Merged(left + right) == Joined(Merged(left), Merged(right))
  {
    JoinedExtremes(left, right);
    JoinedVolume(left, right);
  }

  lemma MergedAlone(bar: Kline)
    ensures Merged([bar]) == bar
  {
    assert [bar][..0] == [];
    assert Volume([bar]) == Volume([]) + bar.volume;
  }

  /** Merging the buckets is merging the bars, so the whole span and the whole volume are kept. */
  lemma {:induction false} MergedBuckets(bars: seq<Kline>, bucket: nat)
    requires bucket >= 1 && bars != []
    ensures Bucketed(bars, bucket) != []
    ensures Merged(Bucketed(bars, bucket)) == Merged(bars)
    decreases |bars|
  {
    hide Merged;
    if |bars| > bucket {
      var left, right := bars[..bucket], bars[bucket..];
      assert bars == left + right;
      MergedBuckets(right, bucket);
      MergedInTwo(left, right);
      MergedInTwo([Merged(left)], Bucketed(right, bucket));
      MergedAlone(Merged(left));
    } else {
      MergedAlone(Merged(bars));
    }
  }

  // ---- Where the buckets are ----

  /** Bucket i holds the bars from i * bucket up to the next multiple, or to the end. */
  lemma {:induction false} BucketedAt(bars: seq<Kline>, bucket: nat, i: nat)
    requires bucket >= 1 && i * bucket < |bars|
    ensures i < |Bucketed(bars, bucket)|
    ensures Bucketed(bars, bucket)[i] ==
            Merged(bars[i * bucket .. if i * bucket + bucket < |bars| then i * bucket + bucket else |bars|])
  {
    hide Merged;
    if i == 0 {
      assert bars[..|bars|] == bars;
    } else {
      var at := i * bucket;
      var back := (i - 1) * bucket;
      OneFewer(i, bucket);
      var rest := bars[bucket..];
      BucketedAt(rest, bucket, i - 1);
      assert Bucketed(bars, bucket)[i] == Bucketed(rest, bucket)[i - 1];
      var end := if at + bucket < |bars| then at + bucket else |bars|;
      assert rest[back .. end - bucket] == bars[at .. end];
    }
  }

  lemma OneFewer(i: nat, bucket: nat)
    requires i >= 1
    ensures (i - 1) * bucket == i * bucket - bucket && i * bucket >= bucket
  {
  }

  lemma {:induction false} BucketedLength(bars: seq<Kline>, bucket: nat)
    requires bucket >= 1
    ensures |Bucketed(bars, bucket)| == (|bars| + bucket - 1) / bucket
  {
    hide Merged;
    if |bars| > bucket {
      BucketedLength(bars[bucket..], bucket);
      OneBucketMore(|bars| - 1, bucket);
    } else if bars != [] {
      OneBucketMore(|bars| - 1, bucket);
      SmallQuotient(|bars| - 1, bucket);
    } else {
      SmallQuotient(bucket - 1, bucket);
    }
  }

  lemma OneBucketMore(n: nat, bucket: nat)
    requires bucket >= 1
    ensures (n + bucket) / bucket == n / bucket + 1
  {
    var q, r, q', r' := n / bucket, n % bucket, (n + bucket) / bucket, (n + bucket) % bucket;
    SameQuotient(q + 1, r, q', r', bucket);
  }

  lemma SameQuotient(q: int, r: nat, q': int, r': nat, d: nat)
    requires r < d && r' < d && q * d + r == q' * d + r'
    ensures q == q'
  {
    var k := q' - q;
    assert k * d == r - r';
    assert k >= 1 ==> k * d >= d;
    assert k <= -1 ==> k * d <= -1 * d;
  }

  lemma SmallQuotient(n: nat, bucket: nat)
    requires n < bucket
    ensures n / bucket == 0
  {
  }

  lemma {:induction false} BucketsOfOne(bars: seq<Kline>)
    ensures Bucketed(bars, 1) == bars
  {
    if bars != [] {
      assert bars[..1] == [bars[0]];
      MergedAlone(bars[0]);
      if |bars| == 1 {
        assert bars[..1] == bars;
      } else {
        BucketsOfOne(bars[1..]);
      }
    }
  }

  // ---- Aggregating twice ----

  /** Whole buckets at the front can be aggregated apart from the rest. */
  lemma {:induction false} BucketedInTwo(left: seq<Kline>, right: seq<Kline>, bucket: nat, count: nat)
    requires bucket >= 1 && |left| == count * bucket
    ensures Bucketed(left + right, bucket) == Bucketed(left, bucket) + Bucketed(right, bucket)
    ensures |Bucketed(left, bucket)| == count
    decreases count
  {
    if count == 0 {
      assert left + right == right;
    } else {
      assert |left| - bucket == (count - 1) * bucket;
      var rest := left[bucket..];
      BucketedInTwo(rest, right, bucket, count - 1);
      assert left[..bucket] + rest == left;
      assert (left + right)[..bucket] == left[..bucket];
      assert (left + right)[bucket..] == rest + right;
      if |left| == bucket {
        assert left[..bucket] == left && count == 1;
        assert rest == [];
        if right == [] { assert left + right == left; }
      }
    }
  }

  /** Bars that fit a wide bucket fill at most b narrow ones. */
  lemma {:induction false} FewBuckets(bars: seq<Kline>, a: nat, b: nat)
    requires a >= 1 && |bars| <= b * a
    ensures |Bucketed(bars, a)| <= b
    decreases b
  {
    hide Merged;
    if |bars| > a {
      OneFewer(b, a);
      FewBuckets(bars[a..], a, b - 1);
    }
  }

  lemma {:induction false} BucketsCompose(bars: seq<Kline>, a: nat, b: nat, wide: nat)
    requires a >= 1 && b >= 1 && wide == b * a
    ensures wide >= 1 && Bucketed(Bucketed(bars, a), b) == Bucketed(bars, wide)
    decreases |bars|
  {
    hide Merged;
    OneFewer(b, a);
    if bars == [] {
    } else if |bars| <= wide {
      MergedBuckets(bars, a);
      FewBuckets(bars, a, b);
    } else {
      var left, right := bars[..wide], bars[wide..];
      assert bars == left + right;
      BucketedInTwo(left, right, a, b);
      BucketsCompose(right, a, b, wide);
      MergedBuckets(left, a);
      MergedBuckets(right, a);
      var x, y := Bucketed(left, a), Bucketed(right, a);
      assert (x + y)[..b] == x && (x + y)[b..] == y;
    }
  }

  /** Aggregating by a and then by b is aggregating by a * b. */
  lemma AggregationComposes(bars: seq<Kline>, a: nat, b: nat)
    requires a >= 1 && b >= 1
    ensures Aggregated(Aggregated(bars, a), b) == Aggregated(bars, a * b)
  {
    AggregatedIsBucketed(bars, a);
    AggregatedIsBucketed(Aggregated(bars, a), b);
    BucketsCompose(bars, a, b, a * b);
    AggregatedIsBucketed(bars, a * b);
  }

  lemma AggregatedIsBucketed(bars: seq<Kline>, bucket: nat)
    requires bucket >= 1
    ensures Aggregated(bars, bucket) == Bucketed(bars, bucket)
  {
    BucketsOfOne(bars);
  }

  /** Aggregation keeps the volume, the extremes, the opening and the close, in ceil(n / bucket) bars. */
  lemma AggregationConserves(bars: seq<Kline>, bucket: int)
    ensures bars != [] ==> Aggregated(bars, bucket) != [] && Merged(Aggregated(bars, bucket)) == Merged(bars)
    ensures Volume(Aggregated(bars, bucket)) == Volume(bars)
    ensures bucket >= 1 ==> |Aggregated(bars, bucket)| == (|bars| + bucket - 1) / bucket
    ensures bucket < 1 ==> Aggregated(bars, bucket) == bars
  {
    if bucket >= 1 {
      AggregatedIsBucketed(bars, bucket);
      BucketedLength(bars, bucket);
      if bars != [] {
        MergedBuckets(bars, bucket);
        assert Merged(Bucketed(bars, bucket)).volume == Merged(bars).volume;
      }
    }
  }
}
