/** What bucket counts can promise: the exact condition under which a recommended read timeout covers 95% of whatever
    samples may lie behind the buckets. */
module CoverageExact {
  import opened Wrappers
  import opened Options
  import opened Histograms
  import opened Sorting
  import opened Quantiles
  import opened Samples
  import opened Timeouts
  import opened LatencySeries
  import opened Entries
  import opened Exporter
  import opened Coverage
  import Selection

  /** The exporter could have seen these samples instead. */
  predicate SameBuckets(other: seq<real>, samples: seq<real>, bounds: set<Bound>) {
    |other| == |samples| && Cumulative(other, bounds) == Cumulative(samples, bounds)
  }

  /** At least 95% of any samples behind the buckets, each with its safety margin, stay within `read` seconds. */
  ghost predicate AlwaysCovered(samples: seq<real>, bounds: set<Bound>, factor: real, read: int) {
    forall other :: SameBuckets(other, samples, bounds) ==>
      Covered(other, factor, read) >= Ceil(|samples| as real * 0.95)
  }

  // ---------- Raising samples unseen ----------

  predicate Low(s: real, lo: Option<real>) {
    lo.Some? && s <= lo.value
  }

  function Raised(s: real, lo: Option<real>, v: real): real {
    if Low(s, lo) then s else MaxReal(s, v)
  }

  /** Samples up to `lo` stay; all others become at least `v`. */
  function Lift(samples: seq<real>, lo: Option<real>, v: real): (r: seq<real>)
    ensures |r| == |samples|
  {
    if samples == [] then [] else [Raised(samples[0], lo, v)] + Lift(samples[1..], lo, v)
  }

  function CountLow(samples: seq<real>, lo: Option<real>): nat {
    if lo.Some? then CountLe(samples, Finite(lo.value)) else 0
  }

  /** No finite bound lies above `lo` and below `v`. */
  ghost predicate Gap(bounds: set<Bound>, lo: Option<real>, v: real) {
    && (lo.Some? ==> Finite(lo.value) in bounds && lo.value < v)
    && forall x :: Finite(x) in bounds ==> Low(x, lo) || v <= x
  }

  lemma {:induction false} LiftCounts(samples: seq<real>, bounds: set<Bound>, lo: Option<real>, v: real, b: Bound)
    requires Gap(bounds, lo, v) && b in bounds
    ensures CountLe(Lift(samples, lo, v), b) == CountLe(samples, b)
  {
    if samples != [] {
      var s := samples[0];
      assert Within(Raised(s, lo, v), b) <==> Within(s, b) by {
        if b.Finite? { assert Finite(b.x) in bounds; }
      }
      assert Lift(samples, lo, v)[1..] == Lift(samples[1..], lo, v);
      LiftCounts(samples[1..], bounds, lo, v, b);
    }
  }

  lemma LiftUnseen(samples: seq<real>, bounds: set<Bound>, lo: Option<real>, v: real)
    requires Gap(bounds, lo, v)
    ensures SameBuckets(Lift(samples, lo, v), samples, bounds)
  {
    hide CountLe, Lift, Gap;
    forall b | b in bounds ensures CountLe(Lift(samples, lo, v), b) == CountLe(samples, b) {
      LiftCounts(samples, bounds, lo, v, b);
    }
  }

  /** Raised samples are out of reach. */
  lemma {:induction false} LiftEscapes(samples: seq<real>, lo: Option<real>, v: real, factor: real, read: int)
    requires factor >= 1.0 && v * factor > read as real
    ensures Covered(Lift(samples, lo, v), factor, read) <= CountLow(samples, lo)
  {
    if samples != [] {
      var s := samples[0];
      LiftEscapes(samples[1..], lo, v, factor, read);
      assert Lift(samples, lo, v)[1..] == Lift(samples[1..], lo, v);
      if !Low(s, lo) {
        MulMonotone(v, Raised(s, lo, v), factor);
      }
    }
  }

  lemma GapBelow(bounds: set<Bound>, v: real) returns (lo: Option<real>)
    ensures Gap(bounds, lo, v)
  {
    var below := set b | b in bounds && b.Finite? && b.x < v;
    if below == {} {
      lo := None;
      assert forall x :: Finite(x) in bounds ==> Finite(x) !in below;
    } else {
      var top := LeastOf(below, (a: Bound, b: Bound) => Below(b, a));
      lo := Some(top.x);
      forall x | Finite(x) in bounds ensures Low(x, lo) || v <= x {
        assert Finite(x) in below || v <= x;
      }
    }
  }

  lemma TooFew(n: nat, c: nat)
    requires n >= 1 && (c as real < Target(n as real, 0.95))
    ensures c < Ceil(n as real * 0.95)
  {
    assert Ceil(n as real * 0.95) as real >= n as real * 0.95 > 0.0;
  }

  /** When no bound below `v` reaches the target, and `v` is out of reach, other samples with the same buckets
      escape. */
  lemma SomeEscape(samples: seq<real>, bounds: set<Bound>, v: real, factor: real, read: int)
    requires samples != [] && factor >= 1.0 && v * factor > read as real
    requires forall x :: Finite(x) in bounds && x < v ==>
      CountLe(samples, Finite(x)) as real < Target(|samples| as real, 0.95)
    ensures !AlwaysCovered(samples, bounds, factor, read)
  {
    hide CountLe, Covered, Lift, SameBuckets, Ceil, Target;
    var lo := GapBelow(bounds, v);
    LiftUnseen(samples, bounds, lo, v);
    LiftEscapes(samples, lo, v, factor, read);
    assert Target(|samples| as real, 0.95) > 0.0 by { TargetPositive(|samples| as real, 0.95); }
    TooFew(|samples|, CountLow(samples, lo));
  }

  lemma TargetPositive(n: real, q: real)
    ensures Target(n, q) >= 1.0
  {
  }

  // ---------- The exact condition ----------

  /** The estimate is backed by a finite bucket, and the limit has room for it with the safety margin. */
  ghost predicate Backed(samples: seq<real>, bounds: set<Bound>, opts: TuningOptions) {
    && InFiniteBucket(samples, bounds, 0.95)
    && Quantile(Cumulative(samples, bounds), |samples| as real, 0.95) * opts.safetyFactor <= opts.maxReadSeconds as real
  }

  lemma BackedCovers(samples: seq<real>, bounds: set<Bound>, opts: TuningOptions, read: int)
    requires samples != [] && ValidOptions(opts) && InFiniteBucket(samples, bounds, 0.95)
    requires Quantile(Cumulative(samples, bounds), |samples| as real, 0.95) * opts.safetyFactor <= read as real
    ensures AlwaysCovered(samples, bounds, opts.safetyFactor, read)
  {
    hide CountLe, Covered, Cumulative, Ceil, Target, Quantile;
    forall other | SameBuckets(other, samples, bounds)
      ensures Covered(other, opts.safetyFactor, read) >= Ceil(|samples| as real * 0.95)
    {
      SamplesCovered(other, bounds, opts, read);
    }
  }

  /** No finite bucket reaches the target: samples beyond every bound and beyond the timeout are possible. */
  lemma UnboundedEscapes(samples: seq<real>, bounds: set<Bound>, factor: real, read: int)
    requires samples != [] && factor >= 1.0 && read >= 1 && !InFiniteBucket(samples, bounds, 0.95)
    ensures !AlwaysCovered(samples, bounds, factor, read)
  {
    hide CountLe, Covered, Target, AlwaysCovered, Quantile;
    var v := read as real + 1.0;
    MulMonotone(1.0, factor, v);
    forall x | Finite(x) in bounds && x < v
      ensures CountLe(samples, Finite(x)) as real < Target(|samples| as real, 0.95)
    {
      assert !Reaches(Cumulative(samples, bounds), x, Target(|samples| as real, 0.95));
    }
    SomeEscape(samples, bounds, v, factor, read);
  }

  /** The limit is too low: samples as slow as the p95 itself are possible. */
  lemma LimitedEscapes(samples: seq<real>, bounds: set<Bound>, factor: real, read: int)
    requires samples != [] && factor >= 1.0 && InFiniteBucket(samples, bounds, 0.95)
    requires Quantile(Cumulative(samples, bounds), |samples| as real, 0.95) * factor > read as real
    ensures !AlwaysCovered(samples, bounds, factor, read)
  {
    hide CountLe, Covered, Target, AlwaysCovered;
    var buckets, target := Cumulative(samples, bounds), Target(|samples| as real, 0.95);
    var v := Quantile(buckets, |samples| as real, 0.95);
    assert IsReached(buckets, target, v);
    forall x | Finite(x) in bounds && x < v ensures CountLe(samples, Finite(x)) as real < target {
      assert !Reaches(buckets, x, target);
    }
    SomeEscape(samples, bounds, v, factor, read);
  }

  /** The recommended read timeout covers 95% of whatever samples lie behind the buckets exactly when the estimate is
      backed. */
  lemma CoveredExactly(samples: seq<real>, bounds: set<Bound>, opts: TuningOptions, connect: SeriesStats,
                       total: SeriesStats)
    requires samples != [] && ValidOptions(opts)
    requires total.p95 == Quantile(Cumulative(samples, bounds), |samples| as real, 0.95)
    ensures AlwaysCovered(samples, bounds, opts.safetyFactor, RecommendTimeouts(connect, total, opts).read) <==>
            Backed(samples, bounds, opts)
  {
    hide Cumulative, Quantile, AlwaysCovered, InFiniteBucket, RecommendTimeouts;
    var read := RecommendTimeouts(connect, total, opts).read;
    ReadTimeoutCovers(connect, total, opts);
    RecommendInRange(connect, total, opts);
    if Backed(samples, bounds, opts) {
      BackedCovers(samples, bounds, opts, read);
    } else if !InFiniteBucket(samples, bounds, 0.95) {
      UnboundedEscapes(samples, bounds, opts.safetyFactor, read);
    } else {
      LimitedEscapes(samples, bounds, opts.safetyFactor, read);
    }
  }

  /** The same for an entry reported from an exporter's text. */
  lemma EntryCoveredExactly(fs: seq<Family>, bounds: seq<real>, show: Printer, opts: TuningOptions, conv: Strconv,
                            entries: seq<Entry>, e: Entry)
    requires Exportable(fs, bounds, show, conv) && ValidOptions(opts)
    requires IsReport(Parse(Render(fs, bounds, show), opts, conv), opts, entries) && e in entries
    ensures var samples := Gathered(fs, opts, Total(EntryKey(e)));
            AlwaysCovered(samples, BoundSet(bounds), opts.safetyFactor, e.recommended.read) <==>
            Backed(samples, BoundSet(bounds), opts)
  {
    hide *;
    var m, k := Parse(Render(fs, bounds, show), opts, conv), Total(EntryKey(e));
    ExportParses(fs, bounds, show, opts, conv);
    EntryTimeout(m, opts, entries, e);
    DumpP95(m, fs, bounds, opts, k);
    var connect := EntryRead(m, opts, entries, e);
    CoveredExactly(Gathered(fs, opts, k), BoundSet(bounds), opts, connect, Summary(m[k]));
  }

  lemma EntryRead(m: SeriesMap, opts: TuningOptions, entries: seq<Entry>, e: Entry) returns (connect: SeriesStats)
    requires IsReport(m, opts, entries) && e in entries
    ensures Total(EntryKey(e)) in m
    ensures e.recommended == RecommendTimeouts(connect, Summary(m[Total(EntryKey(e))]), opts)
  {
    hide Summary, IsReport, RecommendTimeouts, PhasesOf;
    var key := EntryKey(e);
    Selection.ReportHolds(m, opts, entries, e);
    PhaseListed(m, Total(key), opts);
    connect := PhaseOrZero(PhasesOf(m, key, opts), "connect");
  }
}
