/** From a latency histogram to whole-second timeouts. */
module Timeouts {
  import opened Options
  import opened Histograms
  import opened Quantiles
  import opened Samples
  import LatencySeries

  datatype SeriesStats = SeriesStats(count: real, mean: real, p95: real, p99: real)

  datatype Recommendation = Recommendation(connect: int, send: int, read: int)

  const NO_STATS := SeriesStats(0.0, 0.0, 0.0, 0.0)

  /** The sample count, or the unbounded bucket when no positive count was reported. */
  function CountOf(h: Histogram): real {
    if h.count <= 0.0 && PosInf in h.buckets then h.buckets[PosInf] else h.count
  }

  ghost function Summary(h: Histogram): SeriesStats {
    var count := CountOf(h);
    SeriesStats(count, if count > 0.0 then h.sum / count else 0.0,
                Quantile(h.buckets, count, 0.95), Quantile(h.buckets, count, 0.99))
  }

  method SummarizeHistogram(series: LatencySeries.HistogramSeries) returns (stats: SeriesStats)
    ensures stats == Summary(series.Contents())
  {
    var count := series.Count;
    if count <= 0.0 && PosInf in series.Buckets {
      count := series.Buckets[PosInf];
    }
    var mean := 0.0;
    if count > 0.0 {
      mean := series.Sum / count;
    }
    var p95 := HistogramQuantile(series.Buckets, count, 0.95);
    var p99 := HistogramQuantile(series.Buckets, count, 0.99);
    stats := SeriesStats(count, mean, p95, p99);
  }

  function ClampInt(v: int, low: int, high: int): int {
    if v < low then low else if v > high then high else v
  }

  /** A phase without a positive p95 is taken to last its configured minimum, before the safety factor. */
  function EffectiveMs(p95: real, minimum: real): real {
    if p95 * 1000.0 <= 0.0 then minimum else p95 * 1000.0
  }

  /** The whole seconds asked for before the upper limit applies. */
  function WantedSeconds(p95: real, minimum: real, opts: TuningOptions): int {
    Ceil(MaxReal(EffectiveMs(p95, minimum) * opts.safetyFactor, minimum) / 1000.0)
  }

  function RecommendTimeouts(connect: SeriesStats, total: SeriesStats, opts: TuningOptions): Recommendation {
    var connectSec := ClampInt(WantedSeconds(connect.p95, opts.minConnectMs, opts), 1, opts.maxConnectSeconds);
    var readSec := ClampInt(WantedSeconds(total.p95, opts.minReadMs, opts), 1, opts.maxReadSeconds);
    Recommendation(connectSec, readSec, readSec)
  }

  /** Half-way cases round away from zero, to two decimals. */
  function Round2(v: real): real {
    var t := v * 100.0;
    (if t >= 0.0 then (t + 0.5).Floor else -((-t + 0.5).Floor)) as real / 100.0
  }

  lemma Round2Close(v: real)
    ensures v - 0.005 <= Round2(v) <= v + 0.005
  {
  }

  lemma Round2Monotone(v: real, w: real)
    requires v <= w
    ensures Round2(v) <= Round2(w)
  {
    var a, b := v * 100.0, w * 100.0;
    if 0.0 <= a {
      assert (a + 0.5).Floor <= (b + 0.5).Floor;
    } else if b < 0.0 {
      assert (-b + 0.5).Floor <= (-a + 0.5).Floor;
    } else {
      assert (-a + 0.5).Floor >= 0 && (b + 0.5).Floor >= 0;
    }
  }

  /** Two decimals, the nearest ones, and half-way cases away from zero. */
  lemma Round2Exactly(v: real)
    ensures Round2(v) * 100.0 == (Round2(v) * 100.0).Floor as real
    ensures v >= 0.0 ==> v - 0.005 < Round2(v) <= v + 0.005
    ensures v < 0.0 ==> v - 0.005 <= Round2(v) < v + 0.005
  {
    var t := v * 100.0;
    var n := if t >= 0.0 then (t + 0.5).Floor else -((-t + 0.5).Floor);
    assert Round2(v) == n as real / 100.0;
    assert Round2(v) * 100.0 == n as real;
  }

  /** The count reported for a series is its own, or the unbounded bucket's when that is not positive; the mean is taken
      over it, and so are the quantiles. */
  lemma SummaryExactly(h: Histogram)
    ensures h.count > 0.0 ==> Summary(h).count == h.count && Summary(h).mean * h.count == h.sum
    ensures h.count <= 0.0 && PosInf !in h.buckets ==> Summary(h) == SeriesStats(h.count, 0.0, 0.0, 0.0)
    ensures h.count <= 0.0 && PosInf in h.buckets ==> Summary(h).count == h.buckets[PosInf]
    ensures h.count <= 0.0 && PosInf in h.buckets && h.buckets[PosInf] > 0.0 ==>
      && Summary(h).mean * h.buckets[PosInf] == h.sum
      && Summary(h).p95 == Quantile(h.buckets, h.buckets[PosInf], 0.95)
      && Summary(h).p99 == Quantile(h.buckets, h.buckets[PosInf], 0.99)
  {
    var count := CountOf(h);
    if count > 0.0 {
      assert h.sum / count * count == h.sum;
    }
  }

  /** In every summary the p95 is at most the p99, also after rounding to hundredths of a millisecond. */
  lemma SummaryOrdered(h: Histogram)
    ensures Summary(h).p95 <= Summary(h).p99
    ensures Round2(Summary(h).p95 * 1000.0) <= Round2(Summary(h).p99 * 1000.0)
  {
    QuantileMonotone(h.buckets, CountOf(h), 0.95, 0.99);
    Round2Monotone(Summary(h).p95 * 1000.0, Summary(h).p99 * 1000.0);
  }

  // ---------- Properties of the recommendation ----------

  lemma RecommendInRange(connect: SeriesStats, total: SeriesStats, opts: TuningOptions)
    requires ValidOptions(opts)
    ensures var r := RecommendTimeouts(connect, total, opts);
            1 <= r.connect <= opts.maxConnectSeconds && 1 <= r.read <= opts.maxReadSeconds && r.send == r.read
  {
  }

  /** `k` seconds cover the latency times the safety factor, and the configured minimum. */
  predicate Covers(k: int, p95: real, minimum: real, opts: TuningOptions) {
    p95 * opts.safetyFactor <= k as real && minimum <= k as real * 1000.0
  }

  /** `k` is the least positive whole number of seconds that covers the phase, or the limit when that number exceeds
      it. */
  ghost predicate IsLeastCover(k: int, p95: real, minimum: real, limit: int, opts: TuningOptions) {
    && 1 <= k <= limit && (Covers(k, p95, minimum, opts) || k == limit)
    && forall j :: 1 <= j && Covers(j, p95, minimum, opts) ==> k <= j
  }

  /** With a positive p95, each recommended timeout is the least one that covers its phase. */
  lemma TimeoutsLeast(connect: SeriesStats, total: SeriesStats, opts: TuningOptions)
    requires ValidOptions(opts)
    ensures var r := RecommendTimeouts(connect, total, opts);
            && (connect.p95 > 0.0 ==>
                IsLeastCover(r.connect, connect.p95, opts.minConnectMs, opts.maxConnectSeconds, opts))
            && (total.p95 > 0.0 ==> IsLeastCover(r.read, total.p95, opts.minReadMs, opts.maxReadSeconds, opts))
  {
    hide WantedSeconds;
    if connect.p95 > 0.0 {
      ClampedLeast(connect.p95, opts.minConnectMs, opts.maxConnectSeconds, opts);
    }
    if total.p95 > 0.0 {
      ClampedLeast(total.p95, opts.minReadMs, opts.maxReadSeconds, opts);
    }
  }

  lemma ClampedLeast(p95: real, minimum: real, limit: int, opts: TuningOptions)
    requires ValidOptions(opts) && p95 > 0.0 && minimum > 0.0 && limit >= 1
    ensures IsLeastCover(ClampInt(WantedSeconds(p95, minimum, opts), 1, limit), p95, minimum, limit, opts)
  {
    hide WantedSeconds;
    WantedCovers(p95, minimum, opts);
    forall j | 1 <= j && Covers(j, p95, minimum, opts) ensures WantedSeconds(p95, minimum, opts) <= j {
      WantedLeast(p95, minimum, opts, j);
    }
  }

  lemma WantedCovers(p95: real, minimum: real, opts: TuningOptions)
    requires opts.safetyFactor >= 1.0 && minimum > 0.0 && p95 > 0.0
    ensures var w := WantedSeconds(p95, minimum, opts);
            w >= 1 && p95 * opts.safetyFactor <= w as real && minimum <= w as real * 1000.0
  {
    Scaled(p95, opts.safetyFactor);
    var need := MaxReal(p95 * 1000.0 * opts.safetyFactor, minimum);
    assert need / 1000.0 <= Ceil(need / 1000.0) as real;
  }

  lemma WantedLeast(p95: real, minimum: real, opts: TuningOptions, k: int)
    requires p95 > 0.0
    ensures p95 * opts.safetyFactor <= k as real && minimum <= k as real * 1000.0 ==>
      WantedSeconds(p95, minimum, opts) <= k
  {
    Scaled(p95, opts.safetyFactor);
    var need := MaxReal(p95 * 1000.0 * opts.safetyFactor, minimum);
    assert Ceil(need / 1000.0) as real - 1.0 < need / 1000.0;
  }

  lemma Scaled(x: real, factor: real)
    ensures x * 1000.0 * factor == (x * factor) * 1000.0
  {
  }

  /** The read timeout covers the safety margin exactly when the limit does. */
  lemma ReadTimeoutCovers(connect: SeriesStats, total: SeriesStats, opts: TuningOptions)
    requires ValidOptions(opts)
    ensures total.p95 * opts.safetyFactor <= RecommendTimeouts(connect, total, opts).read as real
      <==> total.p95 * opts.safetyFactor <= opts.maxReadSeconds as real
  {
    if total.p95 > 0.0 {
      WantedCovers(total.p95, opts.minReadMs, opts);
    } else {
      assert total.p95 * opts.safetyFactor <= 0.0;
    }
  }

  lemma WantedMonotone(p: real, q: real, minimum: real, opts: TuningOptions)
    requires opts.safetyFactor >= 1.0 && EffectiveMs(p, minimum) <= EffectiveMs(q, minimum)
    ensures WantedSeconds(p, minimum, opts) <= WantedSeconds(q, minimum, opts)
  {
    hide EffectiveMs, Ceil;
    MulMonotone(EffectiveMs(p, minimum), EffectiveMs(q, minimum), opts.safetyFactor);
    CeilMonotone(MaxReal(EffectiveMs(p, minimum) * opts.safetyFactor, minimum) / 1000.0,
                 MaxReal(EffectiveMs(q, minimum) * opts.safetyFactor, minimum) / 1000.0);
  }

  lemma MulMonotone(a: real, b: real, factor: real)
    requires a <= b && factor >= 0.0
    ensures a * factor <= b * factor
  {
  }

  lemma CeilMonotone(x: real, y: real)
    requires x <= y
    ensures Ceil(x) <= Ceil(y)
  {
    assert Ceil(x) as real - 1.0 < x && y <= Ceil(y) as real;
  }

  // ---------- Slower phases and the zero fallback ----------

  /** The timeout of a phase with a given p95. */
  function PhaseSeconds(p95: real, minimum: real, limit: int, opts: TuningOptions): int {
    ClampInt(WantedSeconds(p95, minimum, opts), 1, limit)
  }

  /** The timeout of a phase that has no positive p95. */
  function FallbackSeconds(minimum: real, limit: int, opts: TuningOptions): int {
    var seconds := Ceil(minimum * opts.safetyFactor / 1000.0);
    if seconds > limit then limit else seconds
  }

  /** From `p` to a slower `q` the timeout does not fall: the fallback applies to both or neither, or else the margin of
      `q`, or the minimum, needs the last second of the fallback's timeout. */
  predicate NoDrop(p: real, q: real, minimum: real, limit: int, opts: TuningOptions) {
    || p > 0.0 || q <= 0.0
    || MaxReal(q * opts.safetyFactor, minimum / 1000.0) > FallbackSeconds(minimum, limit, opts) as real - 1.0
  }

  lemma PhaseMonotoneExactly(p: real, q: real, minimum: real, limit: int, opts: TuningOptions)
    requires ValidOptions(opts) && minimum > 0.0 && limit >= 1 && p <= q
    ensures PhaseSeconds(p, minimum, limit, opts) <= PhaseSeconds(q, minimum, limit, opts) <==>
            NoDrop(p, q, minimum, limit, opts)
  {
    hide WantedSeconds, Ceil, FallbackSeconds;
    if p > 0.0 || q <= 0.0 {
      WantedMonotone(p, q, minimum, opts);
    } else {
      WantedFallback(p, minimum, opts);
      WantedPositive(q, minimum, opts);
      var f, w := FallbackSeconds(minimum, limit, opts), WantedSeconds(q, minimum, opts);
      FallbackIs(p, minimum, limit, opts);
      CeilAtLeast(MaxReal(q * opts.safetyFactor, minimum / 1000.0), f);
      assert PhaseSeconds(p, minimum, limit, opts) == f && w >= 1;
    }
  }

  lemma CeilAtLeast(x: real, k: int)
    ensures k <= Ceil(x) <==> x > k as real - 1.0
  {
    assert Ceil(x) as real - 1.0 < x <= Ceil(x) as real;
  }

  lemma WantedFallback(p: real, minimum: real, opts: TuningOptions)
    requires p <= 0.0 && minimum > 0.0 && opts.safetyFactor >= 1.0
    ensures WantedSeconds(p, minimum, opts) == Ceil(minimum * opts.safetyFactor / 1000.0) >= 1
  {
    hide Ceil;
    assert minimum * opts.safetyFactor >= minimum;
    CeilAtLeast(minimum * opts.safetyFactor / 1000.0, 1);
  }

  lemma FallbackIs(p: real, minimum: real, limit: int, opts: TuningOptions)
    requires p <= 0.0 && minimum > 0.0 && opts.safetyFactor >= 1.0 && limit >= 1
    ensures PhaseSeconds(p, minimum, limit, opts) == FallbackSeconds(minimum, limit, opts)
  {
    hide Ceil, WantedSeconds;
    WantedFallback(p, minimum, opts);
  }

  lemma WantedPositive(q: real, minimum: real, opts: TuningOptions)
    requires q > 0.0 && minimum > 0.0
    ensures WantedSeconds(q, minimum, opts) == Ceil(MaxReal(q * opts.safetyFactor, minimum / 1000.0)) >= 1
  {
    hide Ceil;
    Scaled(q, opts.safetyFactor);
    var need := MaxReal(q * opts.safetyFactor, minimum / 1000.0);
    assert MaxReal(q * 1000.0 * opts.safetyFactor, minimum) / 1000.0 == need;
    CeilAtLeast(need, 1);
  }

  /** For given options, each timeout follows its slower phase exactly when no drop across the zero fallback occurs. */
  lemma RecommendMonotoneExactly(c1: SeriesStats, t1: SeriesStats, c2: SeriesStats, t2: SeriesStats,
                                 opts: TuningOptions)
    requires ValidOptions(opts) && c1.p95 <= c2.p95 && t1.p95 <= t2.p95
    ensures var r1, r2 := RecommendTimeouts(c1, t1, opts), RecommendTimeouts(c2, t2, opts);
            && (r1.connect <= r2.connect <==> NoDrop(c1.p95, c2.p95, opts.minConnectMs, opts.maxConnectSeconds, opts))
            && (r1.read <= r2.read <==> NoDrop(t1.p95, t2.p95, opts.minReadMs, opts.maxReadSeconds, opts))
            && (r1.send <= r2.send <==> r1.read <= r2.read)
  {
    hide WantedSeconds, NoDrop;
    PhaseMonotoneExactly(c1.p95, c2.p95, opts.minConnectMs, opts.maxConnectSeconds, opts);
    PhaseMonotoneExactly(t1.p95, t2.p95, opts.minReadMs, opts.maxReadSeconds, opts);
  }

  function ConnectTimeout(p95: real, opts: TuningOptions): int {
    RecommendTimeouts(NO_STATS.(p95 := p95), NO_STATS, opts).connect
  }

  function ReadTimeout(p95: real, opts: TuningOptions): int {
    RecommendTimeouts(NO_STATS, NO_STATS.(p95 := p95), opts).read
  }

  /** Under all options, a slower phase gets no shorter timeout exactly when the fallback for a missing p95 applies to
      both latencies or to neither. */
  lemma MonotoneUnderAllOptions(p: real, q: real)
    requires p <= q
    ensures (forall opts :: ValidOptions(opts) ==> ReadTimeout(p, opts) <= ReadTimeout(q, opts)) <==>
            (p > 0.0 || q <= 0.0)
    ensures (forall opts :: ValidOptions(opts) ==> ConnectTimeout(p, opts) <= ConnectTimeout(q, opts)) <==>
            (p > 0.0 || q <= 0.0)
  {
    hide WantedSeconds, FallbackSeconds;
    if p > 0.0 || q <= 0.0 {
      forall opts | ValidOptions(opts)
        ensures ReadTimeout(p, opts) <= ReadTimeout(q, opts) && ConnectTimeout(p, opts) <= ConnectTimeout(q, opts)
      {
        var low, high := NO_STATS.(p95 := p), NO_STATS.(p95 := q);
        RecommendMonotoneExactly(low, low, high, high, opts);
      }
    } else {
      var opts := CrossingOptions(q);
      var low, high := NO_STATS.(p95 := p), NO_STATS.(p95 := q);
      RecommendMonotoneExactly(low, low, high, high, opts);
      assert !(ReadTimeout(p, opts) <= ReadTimeout(q, opts)) && !(ConnectTimeout(p, opts) <= ConnectTimeout(q, opts));
    }
  }

  /** Options whose minimums exceed three times a given latency, with room above them. */
  ghost function CrossingOptions(q: real): (opts: TuningOptions)
    requires q > 0.0
    ensures ValidOptions(opts) && forall p :: p <= 0.0 ==>
      && !NoDrop(p, q, opts.minReadMs, opts.maxReadSeconds, opts)
      && !NoDrop(p, q, opts.minConnectMs, opts.maxConnectSeconds, opts)
  {
    var m := q * 3000.0 + 1000.0;
    var limit := Ceil(m * 3.0 / 1000.0);
    var opts := TuningOptions("", "", 1, 0.95, 3.0, m, m, limit, limit, false);
    assert FallbackSeconds(m, limit, opts) == limit;
    assert limit as real - 1.0 >= m * 3.0 / 1000.0 - 1.0 >= m / 1000.0 + 1.0;
    assert MaxReal(q * 3.0, m / 1000.0) == m / 1000.0;
    opts
  }

  /** The exception is real: with the default options an unmeasured phase gets 3 seconds, a 1 ms phase gets 1. */
  lemma RecommendDropsAboveZero(opts: TuningOptions)
    requires opts.safetyFactor == 3.0 && opts.minReadMs == 1000.0 && opts.maxReadSeconds == 120
    ensures RecommendTimeouts(NO_STATS, NO_STATS, opts).read == 3
    ensures RecommendTimeouts(NO_STATS, NO_STATS.(p95 := 0.001), opts).read == 1
  {
  }
}
