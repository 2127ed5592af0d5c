/** Scanning a metrics text into per-phase latency histograms. */
module LatencySeries {
  import opened Wrappers
  import opened Text
  import opened Options
  import opened Histograms
  import opened Sorting
  import Exposition

  const PREFIX := "lumen_upstream_phase_duration_seconds_"

  datatype Kind = BucketLine(le: Bound) | SumLine | CountLine

  /** One accepted line: the series it belongs to and what it adds there. */
  datatype Datum = Datum(series: PhaseSeries, kind: Kind, value: real)

  function Label(labels: map<string, string>, name: string): string {
    if name in labels then labels[name] else ""
  }

  /** An empty, `+Inf` or unreadable bound counts as the unbounded bucket. */
  function BoundOf(conv: Strconv, raw: string): Bound {
    if raw == "" || raw == "+Inf" then PosInf
    else match conv.parseFloat(raw)
      case Some(x) => Finite(x)
      case None => PosInf
  }

  predicate KeyMatches(opts: TuningOptions, key: SeriesKey) {
    (opts.routeId == "" || key.routeId == opts.routeId) && (opts.upstreamId == "" || key.upstreamId == opts.upstreamId)
  }

  predicate StatusMatches(opts: TuningOptions, statusClass: string) {
    opts.includeNon2xx || "2" <= statusClass
  }

  function KeyOf(labels: map<string, string>): SeriesKey {
    SeriesKey(Label(labels, "route_id"), Label(labels, "upstream_id"), Label(labels, "service_id"))
  }

  function DecodeReading(r: Exposition.Reading, opts: TuningOptions, conv: Strconv): Option<Datum> {
    if !(PREFIX <= r.metric) then None
    else
      var suffix := r.metric[|PREFIX|..];
      var key, phase := KeyOf(r.labels), Label(r.labels, "phase");
      if suffix !in {"bucket", "sum", "count"} || phase == "" then None
      else if !KeyMatches(opts, key) || !StatusMatches(opts, Label(r.labels, "status_class")) then None
      else if key.routeId == "" && key.upstreamId == "" then None
      else match conv.parseFloat(r.value)
        case None => None
        case Some(v) =>
          var kind := if suffix == "bucket" then BucketLine(BoundOf(conv, Label(r.labels, "le")))
                      else if suffix == "sum" then SumLine else CountLine;
          Some(Datum(PhaseSeries(key, phase), kind, v))
  }

  /** The label has this value; a missing label counts as empty. */
  predicate HasLabel(labels: map<string, string>, name: string, value: string) {
    if name in labels then labels[name] == value else value == ""
  }

  /** What the `le` label stands for. */
  predicate HasBound(conv: Strconv, labels: map<string, string>, b: Bound) {
    var given := "le" in labels && labels["le"] != "" && labels["le"] != "+Inf";
    match b
    case Finite(x) => given && conv.parseFloat(labels["le"]) == Some(x)
    case PosInf => !given || conv.parseFloat(labels["le"]) == None
  }

  /** Which readings count, and for what: the three metrics of the phase histogram, with a phase, with a route or an
      upstream, with the ids asked for, of status class 2 unless all are asked for, and with a number for a value. */
  lemma ReadingCounts(r: Exposition.Reading, opts: TuningOptions, conv: Strconv, d: Datum)
    ensures DecodeReading(r, opts, conv) == Some(d) <==>
      && (match d.kind
          case BucketLine(le) =>
            r.metric == "lumen_upstream_phase_duration_seconds_" + "bucket" && HasBound(conv, r.labels, le)
          case SumLine => r.metric == "lumen_upstream_phase_duration_seconds_" + "sum"
          case CountLine => r.metric == "lumen_upstream_phase_duration_seconds_" + "count")
      && HasLabel(r.labels, "phase", d.series.phase) && d.series.phase != ""
      && HasLabel(r.labels, "route_id", d.series.key.routeId)
      && HasLabel(r.labels, "upstream_id", d.series.key.upstreamId)
      && HasLabel(r.labels, "service_id", d.series.key.serviceId)
      && (d.series.key.routeId != "" || d.series.key.upstreamId != "")
      && (opts.routeId != "" ==> d.series.key.routeId == opts.routeId)
      && (opts.upstreamId != "" ==> d.series.key.upstreamId == opts.upstreamId)
      && (opts.includeNon2xx ||
          ("status_class" in r.labels && r.labels["status_class"] != "" && r.labels["status_class"][0] == '2'))
      && conv.parseFloat(r.value) == Some(d.value)
  {
    var series := PhaseSeries(KeyOf(r.labels), Label(r.labels, "phase"));
    MetricCut(r.metric);
    LabelsRead(r.labels, d.series);
    BoundRead(conv, r.labels, if d.kind.BucketLine? then d.kind.le else PosInf);
    StatusRead(r.labels, opts);
    hide HasLabel, HasBound, Label, BoundOf, StatusMatches, KeyOf;
  }

  lemma MetricCut(metric: string)
    ensures forall suffix :: PREFIX <= metric && metric[|PREFIX|..] == suffix <==> metric == PREFIX + suffix
  {
  }

  lemma LabelsRead(labels: map<string, string>, series: PhaseSeries)
    ensures series == PhaseSeries(KeyOf(labels), Label(labels, "phase")) <==>
      && HasLabel(labels, "phase", series.phase) && HasLabel(labels, "route_id", series.key.routeId)
      && HasLabel(labels, "upstream_id", series.key.upstreamId) && HasLabel(labels, "service_id", series.key.serviceId)
  {
  }

  lemma BoundRead(conv: Strconv, labels: map<string, string>, b: Bound)
    ensures HasBound(conv, labels, b) <==> b == BoundOf(conv, Label(labels, "le"))
  {
  }

  lemma StatusRead(labels: map<string, string>, opts: TuningOptions)
    ensures StatusMatches(opts, Label(labels, "status_class")) <==>
      || opts.includeNon2xx
      || ("status_class" in labels && labels["status_class"] != "" && labels["status_class"][0] == '2')
  {
    var status := Label(labels, "status_class");
    assert "2" <= status <==> status != "" && status[0] == '2';
  }

  function Decode(raw: string, opts: TuningOptions, conv: Strconv): Option<Datum> {
    match Exposition.ReadLine(raw)
    case None => None
    case Some(r) => DecodeReading(r, opts, conv)
  }

  /** The histogram holding nothing but one line's contribution. */
  function Delta(d: Datum): Histogram {
    match d.kind
    case BucketLine(le) => Histogram(map[le := d.value], 0.0, 0.0)
    case SumLine => Histogram(map[], d.value, 0.0)
    case CountLine => Histogram(map[], 0.0, d.value)
  }

  function Single(d: Option<Datum>): SeriesMap {
    match d
    case None => map[]
    case Some(v) => map[v.series := Delta(v)]
  }

  /** The meaning of a list of lines: the pointwise sum of the lines' contributions. */
  function SumOf(lines: seq<string>, opts: TuningOptions, conv: Strconv): SeriesMap {
    if lines == [] then map[]
    else Plus(SumOf(lines[..|lines| - 1], opts, conv), Single(Decode(lines[|lines| - 1], opts, conv)))
  }

  function Parse(metrics: string, opts: TuningOptions, conv: Strconv): SeriesMap {
    SumOf(Split(metrics, '\n'), opts, conv)
  }

  // ---------- The scanning loop ----------

  class HistogramSeries {
    var Buckets: map<Bound, real>
    var Count: real
    var Sum: real

    constructor ()
      ensures Contents() == EMPTY
    {
      Buckets, Count, Sum := map[], 0.0, 0.0;
    }

    function Contents(): Histogram
      reads this
    {
      Histogram(Buckets, Sum, Count)
    }

    method Record(d: Datum)
      modifies this
      ensures Contents() == AddHistogram(old(Contents()), Delta(d))
    {
      ghost var was := Buckets;
      match d.kind {
        case BucketLine(le) =>
          Buckets := Buckets[le := Bucket(Buckets, le) + d.value];
          assert Buckets == AddBuckets(was, map[le := d.value]);
        case SumLine =>
          Sum := Sum + d.value;
          assert Buckets == AddBuckets(was, map[]);
        case CountLine =>
          Count := Count + d.value;
          assert Buckets == AddBuckets(was, map[]);
      }
    }
  }

  /** The histograms behind a table of series objects. */
  ghost function View(out: map<PhaseSeries, HistogramSeries>): SeriesMap
    reads out.Values
  {
    map k | k in out :: out[k].Contents()
  }

  ghost predicate Unshared(out: map<PhaseSeries, HistogramSeries>) {
    forall j, k :: j in out && k in out && j != k ==> out[j] != out[k]
  }

  method ParseLatencySeries(metrics: string, opts: TuningOptions, conv: Strconv)
    returns (out: map<PhaseSeries, HistogramSeries>)
    ensures View(out) == Parse(metrics, opts, conv)
    ensures Unshared(out) && forall k :: k in out ==> fresh(out[k])
  {
    hide Decode, Plus;
    out := map[];
    var lines := Split(metrics, '\n');
    for n := 0 to |lines|
      invariant Unshared(out) && forall k :: k in out ==> fresh(out[k])
      invariant View(out) == SumOf(lines[..n], opts, conv)
    {
      ghost var was := View(out);
      assert lines[..n + 1][..n] == lines[..n];
      assert SumOf(lines[..n + 1], opts, conv) == Plus(was, Single(Decode(lines[n], opts, conv)));
      var found := DecodeLine(lines[n], opts, conv);
      if found.None? {
        PlusUnit(was);
        continue;
      }
      out := Accumulate(out, found.value);
    }
    assert lines[..|lines|] == lines;
  }

  /** The end of the loop body: find or create the series, then add the line to it. */
  method Accumulate(out: map<PhaseSeries, HistogramSeries>, d: Datum) returns (next: map<PhaseSeries, HistogramSeries>)
    requires Unshared(out)
    modifies out.Values
    ensures View(next) == Plus(old(View(out)), Single(Some(d)))
    ensures Unshared(next) && forall k :: k in next ==> fresh(next[k]) || (k in out && next[k] == out[k])
  {
    hide Plus, AddHistogram, Delta;
    next := out;
    ghost var was := View(out);
    if d.series !in next {
      var created := new HistogramSeries();
      next := next[d.series := created];
    }
    ghost var before := next[d.series].Contents();
    assert before == Lookup(was, d.series);
    next[d.series].Record(d);
    RecordedAt(was, View(next), d);
  }

  lemma RecordedAt(was: SeriesMap, now: SeriesMap, d: Datum)
    requires now.Keys == was.Keys + {d.series}
    requires forall k :: k in was && k != d.series ==> now[k] == was[k]
    requires now[d.series] == AddHistogram(Lookup(was, d.series), Delta(d))
    ensures now == Plus(was, Single(Some(d)))
  {
    hide AddHistogram, Delta;
    forall k | k in was && k != d.series ensures now[k] == AddHistogram(was[k], EMPTY) {
      AddHistogramUnit(was[k]);
    }
  }

  /** The chain of checks in the loop, up to the point where a series is chosen. */
  method DecodeLine(raw: string, opts: TuningOptions, conv: Strconv) returns (d: Option<Datum>)
    ensures d == Decode(raw, opts, conv)
  {
    hide Exposition.SplitMetricLine, TrimSpace, Exposition.LabelsOf;
    var line := TrimSpace(raw);
    if line == "" || "#" <= line {
      return None;
    }
    var split := Exposition.SplitMetricLine(line);
    if split.None? || !(PREFIX <= split.value.metric) {
      return None;
    }
    var suffix := split.value.metric[|PREFIX|..];
    if suffix != "bucket" && suffix != "sum" && suffix != "count" {
      return None;
    }
    var labels := Exposition.ParseLabels(split.value.labels);
    if Label(labels, "phase") == "" {
      return None;
    }
    var routeId, upstreamId := Label(labels, "route_id"), Label(labels, "upstream_id");
    if opts.routeId != "" && routeId != opts.routeId {
      return None;
    }
    if opts.upstreamId != "" && upstreamId != opts.upstreamId {
      return None;
    }
    if !opts.includeNon2xx && !("2" <= Label(labels, "status_class")) {
      return None;
    }
    if routeId == "" && upstreamId == "" {
      return None;
    }
    var value := conv.parseFloat(split.value.value);
    if value.None? {
      return None;
    }
    var k := PhaseSeries(SeriesKey(routeId, upstreamId, Label(labels, "service_id")), Label(labels, "phase"));
    if suffix == "bucket" {
      d := Some(Datum(k, BucketLine(BoundOf(conv, Label(labels, "le"))), value.value));
    } else if suffix == "sum" {
      d := Some(Datum(k, SumLine, value.value));
    } else {
      d := Some(Datum(k, CountLine, value.value));
    }
  }

  // ---------- Parsing is a homomorphism ----------

  lemma {:induction false} SumOfAppend(a: seq<string>, b: seq<string>, opts: TuningOptions, conv: Strconv)
    ensures SumOf(a + b, opts, conv) == Plus(SumOf(a, opts, conv), SumOf(b, opts, conv))
  {
    hide Plus, Decode;
    var left := SumOf(a, opts, conv);
    if b == [] {
      assert a + b == a;
      PlusUnit(left);
    } else {
      var n := |b| - 1;
      var last := Single(Decode(b[n], opts, conv));
      assert (a + b)[..|a| + n] == a + b[..n];
      SumOfAppend(a, b[..n], opts, conv);
      PlusAssociates(left, SumOf(b[..n], opts, conv), last);
    }
  }

  /** Parsing two texts one after the other adds their histograms. */
  lemma ParseAppend(m1: string, m2: string, opts: TuningOptions, conv: Strconv)
    ensures Parse(m1 + "\n" + m2, opts, conv) == Plus(Parse(m1, opts, conv), Parse(m2, opts, conv))
  {
    SplitAppend(m1, '\n', m2);
    SumOfAppend(Split(m1, '\n'), Split(m2, '\n'), opts, conv);
  }

  lemma SumOfSwap(a: seq<string>, b: seq<string>, opts: TuningOptions, conv: Strconv)
    ensures SumOf(a + b, opts, conv) == SumOf(b + a, opts, conv)
  {
    SumOfAppend(a, b, opts, conv);
    SumOfAppend(b, a, opts, conv);
    PlusCommutes(SumOf(a, opts, conv), SumOf(b, opts, conv));
  }

  lemma SumOfRotate(x: seq<string>, front: seq<string>, back: seq<string>, rest: seq<string>, opts: TuningOptions,
                    conv: Strconv)
    requires SumOf(rest, opts, conv) == SumOf(back + front, opts, conv)
    ensures SumOf(front + (x + back), opts, conv) == SumOf(x + rest, opts, conv)
  {
    hide *;
    SumOfSwap(front, x + back, opts, conv);
    SumOfAppend(x, rest, opts, conv);
    SumOfAppend(x, back + front, opts, conv);
    assert (x + back) + front == x + (back + front);
  }

  /** The order of the lines does not matter. */
  lemma {:induction false} SumOfPermutation(a: seq<string>, b: seq<string>, opts: TuningOptions, conv: Strconv)
    requires multiset(a) == multiset(b)
    ensures SumOf(a, opts, conv) == SumOf(b, opts, conv)
  {
    if a == [] {
      assert |multiset(b)| == 0;
    } else {
      hide SumOf;
      var k := Removable(a, b);
      var x, front, back := [a[0]], b[..k], b[k + 1..];
      SumOfPermutation(a[1..], back + front, opts, conv);
      SumOfRotate(x, front, back, a[1..], opts, conv);
    }
  }

  // ---------- Filters ----------

  function Unfiltered(opts: TuningOptions): TuningOptions {
    opts.(routeId := "", upstreamId := "")
  }

  function RestrictTo(m: SeriesMap, opts: TuningOptions): SeriesMap {
    map k | k in m && KeyMatches(opts, k.key) :: m[k]
  }

  lemma ReadingFiltered(r: Exposition.Reading, opts: TuningOptions, conv: Strconv)
    ensures var d := DecodeReading(r, Unfiltered(opts), conv);
            DecodeReading(r, opts, conv) == if d.Some? && KeyMatches(opts, d.value.series.key) then d else None
  {
    hide BoundOf, KeyOf;
  }

  lemma DecodeFiltered(raw: string, opts: TuningOptions, conv: Strconv)
    ensures Single(Decode(raw, opts, conv)) == RestrictTo(Single(Decode(raw, Unfiltered(opts), conv)), opts)
  {
    hide Exposition.ReadLine, DecodeReading, KeyMatches, Delta;
    match Exposition.ReadLine(raw) {
      case None =>
      case Some(r) => ReadingFiltered(r, opts, conv);
    }
  }

  /** Filtering while scanning is the same as scanning everything and restricting the keys. */
  lemma {:induction false} FilterPushdown(lines: seq<string>, opts: TuningOptions, conv: Strconv)
    ensures SumOf(lines, opts, conv) == RestrictTo(SumOf(lines, Unfiltered(opts), conv), opts)
  {
    hide Decode, AddHistogram;
    if lines != [] {
      var n := |lines| - 1;
      FilterPushdown(lines[..n], opts, conv);
      DecodeFiltered(lines[n], opts, conv);
      RestrictPlus(SumOf(lines[..n], Unfiltered(opts), conv), Single(Decode(lines[n], Unfiltered(opts), conv)), opts);
    }
  }

  lemma RestrictPlus(m: SeriesMap, n: SeriesMap, opts: TuningOptions)
    ensures RestrictTo(Plus(m, n), opts) == Plus(RestrictTo(m, opts), RestrictTo(n, opts))
  {
    hide AddHistogram;
  }
}
