/** The text an exporter writes for a latency histogram, and what the scanner makes of it. */
module Exporter {
  import opened Wrappers
  import opened Text
  import opened Options
  import opened Histograms
  import opened Samples
  import opened LatencySeries
  import opened Exposition
  import Encoding

  /** One exported histogram: its identity, the samples it counted, and the sum it reports. */
  datatype Family = Family(key: SeriesKey, phase: string, statusClass: string, samples: seq<real>, sum: real)

  /** What the names of the exported metrics begin with. */
  const EXPORTED := "lumen_upstream_phase_duration_seconds_"

  /** The exporter's number printer. */
  type Printer = real -> string

  predicate PlainText(v: string) {
    Bare(v, IsQuote) && ',' !in v && '\n' !in v
  }

  /** The printer writes `x` so that the reader gets it back. */
  predicate Readable(show: Printer, conv: Strconv, x: real) {
    var v := show(x);
    && conv.parseFloat(v) == Some(x)
    && v != "" && v != "+Inf" && '}' !in v && PlainText(v) && (forall c :: c in v ==> !IsSpace(c))
  }

  predicate ReadableCount(show: Printer, conv: Strconv, n: nat) {
    Readable(show, conv, n as real)
  }

  predicate WellNamed(f: Family) {
    && PlainText(f.key.routeId) && PlainText(f.key.upstreamId) && PlainText(f.key.serviceId)
    && PlainText(f.phase) && PlainText(f.statusClass)
  }

  function Names(f: Family): seq<(string, string)> {
    [("route_id", f.key.routeId), ("upstream_id", f.key.upstreamId), ("service_id", f.key.serviceId),
     ("status_class", f.statusClass), ("phase", f.phase)]
  }

  function BucketSample(f: Family, le: string, count: string): Sample {
    Sample(EXPORTED + "bucket", Names(f) + [("le", le)], count)
  }

  function BucketSamples(f: Family, bounds: seq<real>, show: Printer): (r: seq<Sample>)
    ensures |r| == |bounds|
  {
    seq(|bounds|, i requires 0 <= i < |bounds| =>
      BucketSample(f, show(bounds[i]), show(CountLe(f.samples, Finite(bounds[i])) as real)))
  }

  /** The lines of one histogram: its finite buckets, its unbounded bucket, its sum and its count. */
  function FamilySamples(f: Family, bounds: seq<real>, show: Printer): seq<Sample> {
    BucketSamples(f, bounds, show) +
    [BucketSample(f, "+Inf", show(|f.samples| as real)),
     Sample(EXPORTED + "sum", Names(f), show(f.sum)),
     Sample(EXPORTED + "count", Names(f), show(|f.samples| as real))]
  }

  function AllSamples(fs: seq<Family>, bounds: seq<real>, show: Printer): seq<Sample> {
    if fs == [] then [] else AllSamples(fs[..|fs| - 1], bounds, show) + FamilySamples(fs[|fs| - 1], bounds, show)
  }

  ghost predicate Exportable(fs: seq<Family>, bounds: seq<real>, show: Printer, conv: Strconv) {
    && (forall i, j :: 0 <= i < j < |bounds| ==> bounds[i] != bounds[j])
    && (forall b :: b in bounds ==> Readable(show, conv, b))
    && (forall n :: ReadableCount(show, conv, n))
    && (forall f :: f in fs ==> WellNamed(f) && Readable(show, conv, f.sum))
  }

  // ---------- A printer that meets the assumptions ----------

  function ShowWhole(x: real): string {
    Encoding.Itoa(x.Floor)
  }

  function ReadWhole(v: string): Option<real> {
    Some(Encoding.AtoiValue(v) as real)
  }

  lemma {:induction false} DigitsAreDigits(n: nat)
    ensures forall c :: c in Encoding.Digits(n) ==> '0' <= c <= '9'
  {
    if n >= 10 {
      DigitsAreDigits(n / 10);
    }
  }

  lemma WholeReadable(conv: Strconv, n: int)
    requires conv.parseFloat == ReadWhole
    ensures Readable(ShowWhole, conv, n as real)
  {
    hide Encoding.AtoiValue, Encoding.Digits;
    var v := ShowWhole(n as real);
    Encoding.ItoaRoundTrip(n);
    DigitsAreDigits(if n < 0 then -n else n);
    assert forall c :: c in v ==> '0' <= c <= '9' || c == '-';
    assert v[0] in v && v[|v| - 1] in v;
  }

  /** The assumptions on an exporter can be met: decimal numbers do, for whole bounds and sums and plain names. */
  lemma WholeNumbersExportable(fs: seq<Family>, bounds: seq<real>, conv: Strconv)
    requires conv.parseFloat == ReadWhole
    requires forall i, j :: 0 <= i < j < |bounds| ==> bounds[i] != bounds[j]
    requires forall b :: b in bounds ==> b == b.Floor as real
    requires forall f :: f in fs ==> WellNamed(f) && f.sum == f.sum.Floor as real
    ensures Exportable(fs, bounds, ShowWhole, conv)
  {
    hide Readable, WellNamed;
    forall b | b in bounds ensures Readable(ShowWhole, conv, b) {
      WholeReadable(conv, b.Floor);
    }
    forall n: nat ensures ReadableCount(ShowWhole, conv, n) {
      WholeReadable(conv, n);
    }
    forall f | f in fs ensures Readable(ShowWhole, conv, f.sum) {
      WholeReadable(conv, f.sum.Floor);
    }
  }

  /** The filters let the histogram through. */
  predicate Accepted(f: Family, opts: TuningOptions) {
    && f.phase != "" && (f.key.routeId != "" || f.key.upstreamId != "")
    && (opts.routeId == "" || f.key.routeId == opts.routeId)
    && (opts.upstreamId == "" || f.key.upstreamId == opts.upstreamId)
    && (opts.includeNon2xx || (f.statusClass != "" && f.statusClass[0] == '2'))
  }

  lemma AcceptedByScanner(f: Family, opts: TuningOptions)
    ensures Accepted(f, opts) <==>
      && f.phase != "" && KeyMatches(opts, f.key) && StatusMatches(opts, f.statusClass)
      && (f.key.routeId != "" || f.key.upstreamId != "")
  {
    assert "2" <= f.statusClass <==> f.statusClass != "" && f.statusClass[0] == '2';
  }

  function SeriesOf(f: Family): PhaseSeries {
    PhaseSeries(f.key, f.phase)
  }

  function FiniteSet(bounds: seq<real>): set<Bound> {
    set b | b in bounds :: Finite(b)
  }

  function BoundSet(bounds: seq<real>): set<Bound> {
    FiniteSet(bounds) + {PosInf}
  }

  // ---------- One line ----------

  lemma NamesInOrder(f: Family, extra: seq<(string, string)>)
    requires extra == [] || (|extra| == 1 && extra[0].0 == "le")
    ensures var all := Names(f) + extra;
            && |all| == 5 + |extra|
            && all[0] == ("route_id", f.key.routeId) && all[1] == ("upstream_id", f.key.upstreamId)
            && all[2] == ("service_id", f.key.serviceId) && all[3] == ("status_class", f.statusClass)
            && all[4] == ("phase", f.phase) && (extra != [] ==> all[5] == ("le", extra[0].1))
  {
  }

  /** The label names have different lengths. */
  lemma NamesDiffer(f: Family, extra: seq<(string, string)>)
    requires extra == [] || (|extra| == 1 && extra[0].0 == "le")
    ensures var all := Names(f) + extra;
            forall j, k :: 0 <= j < k < |all| ==> all[j].0 != all[k].0
  {
    var all, lengths := Names(f) + extra, [8, 11, 10, 12, 5, 2];
    assert forall j :: 0 <= j < |all| ==> |all[j].0| == lengths[j];
    hide *;
  }

  lemma LabelRead(all: seq<(string, string)>, i: nat, name: string, value: string)
    requires forall j, k :: 0 <= j < k < |all| ==> all[j].0 != all[k].0
    requires i < |all| && all[i] == (name, value)
    ensures Label(LabelMap(all), name) == value
  {
    hide LabelMap;
    LabelMapLookup(all, i);
  }

  lemma NamesRead(f: Family, extra: seq<(string, string)>)
    requires extra == [] || (|extra| == 1 && extra[0].0 == "le")
    ensures var m := LabelMap(Names(f) + extra);
            && KeyOf(m) == f.key && Label(m, "phase") == f.phase && Label(m, "status_class") == f.statusClass
            && (extra != [] ==> Label(m, "le") == extra[0].1)
  {
    hide LabelMap, Names, Label;
    var all := Names(f) + extra;
    NamesInOrder(f, extra);
    NamesDiffer(f, extra);
    LabelRead(all, 0, "route_id", f.key.routeId);
    LabelRead(all, 1, "upstream_id", f.key.upstreamId);
    LabelRead(all, 2, "service_id", f.key.serviceId);
    LabelRead(all, 3, "status_class", f.statusClass);
    LabelRead(all, 4, "phase", f.phase);
    if extra != [] {
      LabelRead(all, 5, "le", extra[0].1);
    }
  }

  lemma SuffixRead(suffix: string)
    ensures PREFIX <= EXPORTED + suffix && (EXPORTED + suffix)[|PREFIX|..] == suffix
  {
  }

  /** What one printed line of a histogram decodes to. */
  lemma LineDecodes(f: Family, suffix: string, extra: seq<(string, string)>, value: string, v: real, kind: Kind,
                    opts: TuningOptions, conv: Strconv)
    requires extra == [] || (|extra| == 1 && extra[0].0 == "le")
    requires conv.parseFloat(value) == Some(v) && Printable(Sample(EXPORTED + suffix, Names(f) + extra, value))
    requires match kind
             case BucketLine(le) => suffix == "bucket" && extra != [] && BoundOf(conv, extra[0].1) == le
             case SumLine => suffix == "sum"
             case CountLine => suffix == "count"
    ensures Decode(PrintSample(Sample(EXPORTED + suffix, Names(f) + extra, value)), opts, conv) ==
              if Accepted(f, opts) then Some(Datum(SeriesOf(f), kind, v)) else None
  {
    hide PrintSample, LabelMap, Printable, Names, ReadLine, BoundOf, KeyOf, Label, KeyMatches, StatusMatches;
    SampleRoundTrip(Sample(EXPORTED + suffix, Names(f) + extra, value));
    NamesRead(f, extra);
    SuffixRead(suffix);
    AcceptedByScanner(f, opts);
    hide Accepted;
  }

  // ---------- One histogram ----------

  function SumDeltas(ds: seq<Datum>): Histogram {
    if ds == [] then EMPTY else AddHistogram(SumDeltas(ds[..|ds| - 1]), Delta(ds[|ds| - 1]))
  }

  function Only(ok: bool, d: Datum): Option<Datum> {
    if ok then Some(d) else None
  }

  /** Lines that all contribute to one series, or are all rejected, add up to at most that series. */
  lemma {:induction false} SameSeries(lines: seq<string>, ds: seq<Datum>, ok: bool, k: PhaseSeries,
                                      opts: TuningOptions, conv: Strconv)
    requires |lines| == |ds|
    requires forall i :: 0 <= i < |ds| ==> ds[i].series == k && Decode(lines[i], opts, conv) == Only(ok, ds[i])
    ensures SumOf(lines, opts, conv) == if lines == [] || !ok then map[] else map[k := SumDeltas(ds)]
  {
    hide Decode, AddHistogram, Delta;
    if lines != [] {
      var n := |lines| - 1;
      SameSeries(lines[..n], ds[..n], ok, k, opts, conv);
      if n == 0 {
        AddHistogramUnit(Delta(ds[n]));
      }
    }
  }

  function BucketData(f: Family, bounds: seq<real>): (ds: seq<Datum>)
    ensures |ds| == |bounds|
  {
    seq(|bounds|, i requires 0 <= i < |bounds| =>
      Datum(SeriesOf(f), BucketLine(Finite(bounds[i])), CountLe(f.samples, Finite(bounds[i])) as real))
  }

  function FamilyData(f: Family, bounds: seq<real>): seq<Datum> {
    BucketData(f, bounds) +
    [Datum(SeriesOf(f), BucketLine(PosInf), |f.samples| as real),
     Datum(SeriesOf(f), SumLine, f.sum),
     Datum(SeriesOf(f), CountLine, |f.samples| as real)]
  }

  function HistogramOf(samples: seq<real>, bounds: seq<real>, sum: real): Histogram {
    Histogram(Cumulative(samples, BoundSet(bounds)), sum, |samples| as real)
  }

  lemma {:induction false} BucketDataSum(f: Family, bounds: seq<real>)
    requires forall i, j :: 0 <= i < j < |bounds| ==> bounds[i] != bounds[j]
    ensures SumDeltas(BucketData(f, bounds)) == Histogram(Cumulative(f.samples, FiniteSet(bounds)), 0.0, 0.0)
  {
    hide CountLe, FiniteSet, Cumulative, AddBuckets;
    if bounds == [] {
      NoBuckets(f.samples);
    } else {
      var n := |bounds| - 1;
      var last := Finite(bounds[n]);
      BucketDataSum(f, bounds[..n]);
      assert BucketData(f, bounds)[..n] == BucketData(f, bounds[..n]);
      OneMoreBound(bounds);
      OneMoreBucket(f.samples, FiniteSet(bounds[..n]), last);
      assert Delta(BucketData(f, bounds)[n]) == Histogram(map[last := CountLe(f.samples, last) as real], 0.0, 0.0);
    }
  }

  lemma NoBuckets(samples: seq<real>)
    ensures Cumulative(samples, FiniteSet([])) == map[]
  {
  }

  lemma OneMoreBound(bounds: seq<real>)
    requires bounds != [] && forall i, j :: 0 <= i < j < |bounds| ==> bounds[i] != bounds[j]
    ensures var n := |bounds| - 1;
            FiniteSet(bounds) == FiniteSet(bounds[..n]) + {Finite(bounds[n])} &&
              Finite(bounds[n]) !in FiniteSet(bounds[..n])
  {
    var n := |bounds| - 1;
    assert bounds == bounds[..n] + [bounds[n]];
  }

  lemma OneMoreBucket(samples: seq<real>, before: set<Bound>, le: Bound)
    requires le !in before
    ensures AddBuckets(Cumulative(samples, before), map[le := CountLe(samples, le) as real]) ==
      Cumulative(samples, before + {le})
  {
    hide CountLe;
  }

  lemma {:induction false} CountAll(samples: seq<real>)
    ensures CountLe(samples, PosInf) == |samples|
  {
    if samples != [] {
      CountAll(samples[1..]);
    }
  }

  lemma ThreeMore(ds: seq<Datum>, d1: Datum, d2: Datum, d3: Datum)
    ensures SumDeltas(ds + [d1, d2, d3]) ==
      AddHistogram(AddHistogram(AddHistogram(SumDeltas(ds), Delta(d1)), Delta(d2)), Delta(d3))
  {
    hide *;
    OneMore(ds, d1);
    OneMore(ds + [d1], d2);
    OneMore(ds + [d1] + [d2], d3);
    assert ds + [d1] + [d2] + [d3] == ds + [d1, d2, d3];
  }

  lemma OneMore(ds: seq<Datum>, d: Datum)
    ensures SumDeltas(ds + [d]) == AddHistogram(SumDeltas(ds), Delta(d))
  {
    assert (ds + [d])[..|ds|] == ds;
  }

  lemma FamilyDataSum(f: Family, bounds: seq<real>)
    requires forall i, j :: 0 <= i < j < |bounds| ==> bounds[i] != bounds[j]
    ensures SumDeltas(FamilyData(f, bounds)) == HistogramOf(f.samples, bounds, f.sum)
  {
    hide CountLe, SumDeltas, BucketData, Cumulative, AddBuckets, FiniteSet, AddHistogram, Delta;
    var n := |f.samples| as real;
    BucketDataSum(f, bounds);
    var k := SeriesOf(f);
    var d1, d2, d3 := Datum(k, BucketLine(PosInf), n), Datum(k, SumLine, f.sum), Datum(k, CountLine, n);
    ThreeMore(BucketData(f, bounds), d1, d2, d3);
    ThreeDeltas(k, f.sum, n);
    UnboundedAdded(f.samples, bounds);
    AddThree(Cumulative(f.samples, FiniteSet(bounds)), Cumulative(f.samples, BoundSet(bounds)), f.sum, n);
  }

  lemma ThreeDeltas(k: PhaseSeries, sum: real, n: real)
    ensures Delta(Datum(k, BucketLine(PosInf), n)) == Histogram(map[PosInf := n], 0.0, 0.0)
    ensures Delta(Datum(k, SumLine, sum)) == Histogram(map[], sum, 0.0)
    ensures Delta(Datum(k, CountLine, n)) == Histogram(map[], 0.0, n)
  {
  }

  lemma UnboundedAdded(samples: seq<real>, bounds: seq<real>)
    ensures var all := Cumulative(samples, BoundSet(bounds));
            && AddBuckets(Cumulative(samples, FiniteSet(bounds)), map[PosInf := |samples| as real]) == all
            && AddBuckets(all, map[]) == all
  {
    hide CountLe, Cumulative, AddBuckets, FiniteSet;
    CountAll(samples);
    UnboundedIsNew(bounds);
    OneMoreBucket(samples, FiniteSet(bounds), PosInf);
    AddBucketsUnit(Cumulative(samples, BoundSet(bounds)));
  }

  lemma AddThree(finite: map<Bound, real>, all: map<Bound, real>, sum: real, n: real)
    requires AddBuckets(finite, map[PosInf := n]) == all && AddBuckets(all, map[]) == all
    ensures AddHistogram(AddHistogram(AddHistogram(Histogram(finite, 0.0, 0.0), Histogram(map[PosInf := n], 0.0, 0.0)),
                                      Histogram(map[], sum, 0.0)), Histogram(map[], 0.0, n)) == Histogram(all, sum, n)
  {
    hide AddBuckets;
  }

  lemma UnboundedIsNew(bounds: seq<real>)
    ensures PosInf !in FiniteSet(bounds)
  {
  }

  function FamilySeries(f: Family, bounds: seq<real>, opts: TuningOptions): SeriesMap {
    if Accepted(f, opts) then map[SeriesOf(f) := HistogramOf(f.samples, bounds, f.sum)] else map[]
  }

  lemma PlainMetric(metric: string)
    requires metric != "" && forall i :: 0 <= i < |metric| ==> metric[i] == '_' || 'a' <= metric[i] <= 'z'
    ensures PrintableMetric(metric)
  {
  }

  lemma PrefixPlain()
    ensures forall i :: 0 <= i < |EXPORTED| ==> EXPORTED[i] == '_' || 'a' <= EXPORTED[i] <= 'z'
  {
  }

  lemma NamesPrintable(f: Family)
    requires WellNamed(f)
    ensures forall i :: 0 <= i < |Names(f)| ==> PrintableLabel(Names(f)[i])
  {
  }

  lemma SamplePrintable(f: Family, suffix: string, extra: seq<(string, string)>, value: string)
    requires WellNamed(f) && suffix in {"bucket", "sum", "count"} && PrintableValue(value)
    requires extra == [] || (|extra| == 1 && extra[0].0 == "le" && PlainText(extra[0].1))
    ensures Printable(Sample(EXPORTED + suffix, Names(f) + extra, value))
  {
    hide PrintableValue, PrintableMetric, Names;
    PrefixPlain();
    assert forall i :: 0 <= i < |suffix| ==> 'a' <= suffix[i] <= 'z';
    PlainMetric(EXPORTED + suffix);
    NamesPrintable(f);
    if extra != [] {
      assert PrintableLabel(extra[0]);
    }
  }

  /** The lines of one histogram parse to that histogram, or to nothing when a filter rejects it. */
  lemma FamilyParses(f: Family, bounds: seq<real>, show: Printer, opts: TuningOptions, conv: Strconv)
    requires Exportable([f], bounds, show, conv)
    ensures SumOf(PrintSamples(FamilySamples(f, bounds, show)), opts, conv) == FamilySeries(f, bounds, opts)
  {
    hide SumOf, Decode, PrintSample, SumDeltas, HistogramOf, Accepted, FamilySamples, FamilyData;
    var samples, ds := FamilySamples(f, bounds, show), FamilyData(f, bounds);
    FamilyLengths(f, bounds, show);
    forall i | 0 <= i < |samples|
      ensures ds[i].series == SeriesOf(f)
      ensures Decode(PrintSamples(samples)[i], opts, conv) == Only(Accepted(f, opts), ds[i])
    {
      FamilyLine(f, bounds, show, i, opts, conv);
    }
    SameSeries(PrintSamples(samples), ds, Accepted(f, opts), SeriesOf(f), opts, conv);
    FamilyDataSum(f, bounds);
  }

  lemma FamilyLengths(f: Family, bounds: seq<real>, show: Printer)
    ensures |FamilySamples(f, bounds, show)| == |FamilyData(f, bounds)| == |bounds| + 3
  {
  }

  lemma FamilyLine(f: Family, bounds: seq<real>, show: Printer, i: nat, opts: TuningOptions, conv: Strconv)
    requires Exportable([f], bounds, show, conv) && i < |bounds| + 3
    ensures |FamilySamples(f, bounds, show)| == |FamilyData(f, bounds)| == |bounds| + 3
    ensures FamilyData(f, bounds)[i].series == SeriesOf(f)
    ensures Decode(PrintSample(FamilySamples(f, bounds, show)[i]), opts, conv) ==
      Only(Accepted(f, opts), FamilyData(f, bounds)[i])
  {
    hide Decode, PrintSample, Accepted, Printable, Names, CountLe, Readable;
    assert f in [f];
    var n := |f.samples|;
    assert ReadableCount(show, conv, n);
    if i < |bounds| {
      var b, c := bounds[i], CountLe(f.samples, Finite(bounds[i]));
      assert b in bounds && ReadableCount(show, conv, c);
      ReadableLine(f, "bucket", [("le", show(b))], c as real, BucketLine(Finite(b)), show, opts, conv, b);
    } else if i == |bounds| {
      ReadableLine(f, "bucket", [("le", "+Inf")], n as real, BucketLine(PosInf), show, opts, conv, 0.0);
    } else if i == |bounds| + 1 {
      assert Names(f) + [] == Names(f);
      ReadableLine(f, "sum", [], f.sum, SumLine, show, opts, conv, 0.0);
    } else {
      assert Names(f) + [] == Names(f);
      ReadableLine(f, "count", [], n as real, CountLine, show, opts, conv, 0.0);
    }
  }

  lemma ReadableLine(f: Family, suffix: string, extra: seq<(string, string)>, v: real, kind: Kind,
                     show: Printer, opts: TuningOptions, conv: Strconv, b: real)
    requires WellNamed(f) && Readable(show, conv, v)
    requires match kind
             case BucketLine(Finite(x)) => suffix == "bucket" && x == b && extra == [("le", show(b))] &&
               Readable(show, conv, b)
             case BucketLine(PosInf) => suffix == "bucket" && extra == [("le", "+Inf")]
             case SumLine => suffix == "sum" && extra == []
             case CountLine => suffix == "count" && extra == []
    ensures Decode(PrintSample(Sample(EXPORTED + suffix, Names(f) + extra, show(v))), opts, conv) ==
              Only(Accepted(f, opts), Datum(SeriesOf(f), kind, v))
  {
    hide Decode, PrintSample, Accepted, Printable, Names;
    SamplePrintable(f, suffix, extra, show(v));
    LineDecodes(f, suffix, extra, show(v), v, kind, opts, conv);
  }
}
