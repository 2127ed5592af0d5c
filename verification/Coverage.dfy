/** From the samples an exporter saw, through its text, to the timeout that covers them. */
module Coverage {
  import opened Text
  import opened Options
  import opened Histograms
  import opened Quantiles
  import opened Samples
  import opened Timeouts
  import opened LatencySeries
  import opened Entries
  import opened Exposition
  import opened Exporter
  import Selection

  // ---------- A whole export ----------

  function Render(fs: seq<Family>, bounds: seq<real>, show: Printer): string {
    Join(PrintSamples(AllSamples(fs, bounds, show)), '\n')
  }

  /** The samples of every accepted histogram of one series, status classes together. */
  function Gathered(fs: seq<Family>, opts: TuningOptions, k: PhaseSeries): seq<real> {
    if fs == [] then []
    else
      var f := fs[|fs| - 1];
      Gathered(fs[..|fs| - 1], opts, k) + (if Accepted(f, opts) && SeriesOf(f) == k then f.samples else [])
  }

  function GatheredSum(fs: seq<Family>, opts: TuningOptions, k: PhaseSeries): real {
    if fs == [] then 0.0
    else
      var f := fs[|fs| - 1];
      GatheredSum(fs[..|fs| - 1], opts, k) + (if Accepted(f, opts) && SeriesOf(f) == k then f.sum else 0.0)
  }

  predicate Present(fs: seq<Family>, opts: TuningOptions, k: PhaseSeries) {
    exists f :: f in fs && Accepted(f, opts) && SeriesOf(f) == k
  }

  ghost predicate IsDump(m: SeriesMap, fs: seq<Family>, bounds: seq<real>, opts: TuningOptions) {
    forall k :: (k in m <==> Present(fs, opts, k)) &&
                (k in m ==> m[k] == HistogramOf(Gathered(fs, opts, k), bounds, GatheredSum(fs, opts, k)))
  }

  lemma PrintAppend(a: seq<Sample>, b: seq<Sample>)
    ensures PrintSamples(a + b) == PrintSamples(a) + PrintSamples(b)
  {
    hide PrintSample;
  }

  lemma {:induction false} DumpParses(fs: seq<Family>, bounds: seq<real>, show: Printer, opts: TuningOptions,
                                      conv: Strconv)
    requires Exportable(fs, bounds, show, conv)
    ensures IsDump(SumOf(PrintSamples(AllSamples(fs, bounds, show)), opts, conv), fs, bounds, opts)
  {
    hide Decode, PrintSamples, FamilySamples, FamilySeries, IsDump, Plus, Readable;
    if fs == [] {
      EmptyDump(bounds, opts, conv);
    } else {
      var n := |fs| - 1;
      var before, f := AllSamples(fs[..n], bounds, show), fs[n];
      assert f in fs && f in [f];
      DumpParses(fs[..n], bounds, show, opts, conv);
      FamilyParses(f, bounds, show, opts, conv);
      PrintAppend(before, FamilySamples(f, bounds, show));
      SumOfAppend(PrintSamples(before), PrintSamples(FamilySamples(f, bounds, show)), opts, conv);
      DumpGrows(SumOf(PrintSamples(before), opts, conv), fs, bounds, opts);
    }
  }

  lemma EmptyDump(bounds: seq<real>, opts: TuningOptions, conv: Strconv)
    ensures IsDump(SumOf(PrintSamples([]), opts, conv), [], bounds, opts)
  {
    assert PrintSamples([]) == [];
  }

  lemma {:induction false} NothingGathered(fs: seq<Family>, opts: TuningOptions, k: PhaseSeries)
    requires !Present(fs, opts, k)
    ensures Gathered(fs, opts, k) == [] && GatheredSum(fs, opts, k) == 0.0
  {
    hide Accepted;
    if fs != [] {
      assert fs[|fs| - 1] in fs;
      NothingGathered(fs[..|fs| - 1], opts, k);
    }
  }

  lemma DumpGrows(m: SeriesMap, fs: seq<Family>, bounds: seq<real>, opts: TuningOptions)
    requires fs != [] && IsDump(m, fs[..|fs| - 1], bounds, opts)
    ensures IsDump(Plus(m, FamilySeries(fs[|fs| - 1], bounds, opts)), fs, bounds, opts)
  {
    hide AddHistogram, HistogramOf, Accepted, Gathered, GatheredSum, Plus;
    var n := |fs| - 1;
    var next := Plus(m, FamilySeries(fs[n], bounds, opts));
    forall k ensures (k in next <==> Present(fs, opts, k)) &&
                     (k in next ==> next[k] == HistogramOf(Gathered(fs, opts, k), bounds, GatheredSum(fs, opts, k))) {
      DumpGrowsAt(m, fs, bounds, opts, k);
    }
  }

  lemma DumpGrowsAt(m: SeriesMap, fs: seq<Family>, bounds: seq<real>, opts: TuningOptions, k: PhaseSeries)
    requires fs != []
    requires k in m <==> Present(fs[..|fs| - 1], opts, k)
    requires k in m ==>
      m[k] == HistogramOf(Gathered(fs[..|fs| - 1], opts, k), bounds, GatheredSum(fs[..|fs| - 1], opts, k))
    ensures var next := Plus(m, FamilySeries(fs[|fs| - 1], bounds, opts));
            (k in next <==> Present(fs, opts, k)) &&
            (k in next ==> next[k] == HistogramOf(Gathered(fs, opts, k), bounds, GatheredSum(fs, opts, k)))
  {
    hide AddHistogram, HistogramOf, Accepted, Present, Plus, Gathered, GatheredSum, SeriesOf, FamilySeries;
    var f, front := fs[|fs| - 1], fs[..|fs| - 1];
    PresentGrows(fs, opts, k);
    GatheredGrows(fs, opts, k);
    FamilyAdded(m, f, bounds, opts, k);
    if Accepted(f, opts) && SeriesOf(f) == k && k in m {
      AddHistogramOf(Gathered(front, opts, k), GatheredSum(front, opts, k), f.samples, f.sum, bounds);
    }
  }

  lemma FamilyAdded(m: SeriesMap, f: Family, bounds: seq<real>, opts: TuningOptions, k: PhaseSeries)
    ensures var next, h := Plus(m, FamilySeries(f, bounds, opts)), HistogramOf(f.samples, bounds, f.sum);
            if Accepted(f, opts) && SeriesOf(f) == k then
              k in next && next[k] == if k in m then AddHistogram(m[k], h) else h
            else (k in next <==> k in m) && (k in m ==> next[k] == m[k])
  {
    hide AddHistogram, HistogramOf, Accepted, Plus, SeriesOf;
    if Accepted(f, opts) {
      PlusSingle(m, SeriesOf(f), HistogramOf(f.samples, bounds, f.sum), k);
    } else {
      PlusUnit(m);
    }
  }

  lemma GatheredGrows(fs: seq<Family>, opts: TuningOptions, k: PhaseSeries)
    requires fs != []
    ensures var f, front := fs[|fs| - 1], fs[..|fs| - 1];
            if Accepted(f, opts) && SeriesOf(f) == k then
              && Gathered(fs, opts, k) == Gathered(front, opts, k) + f.samples
              && GatheredSum(fs, opts, k) == GatheredSum(front, opts, k) + f.sum
              && (!Present(front, opts, k) ==> Gathered(fs, opts, k) == f.samples && GatheredSum(fs, opts, k) == f.sum)
            else
              && Gathered(fs, opts, k) == Gathered(front, opts, k)
              && GatheredSum(fs, opts, k) == GatheredSum(front, opts, k)
  {
    hide Accepted, SeriesOf, Present;
    var front := fs[..|fs| - 1];
    if !Present(front, opts, k) {
      NothingGathered(front, opts, k);
    }
  }

  lemma PresentGrows(fs: seq<Family>, opts: TuningOptions, k: PhaseSeries)
    requires fs != []
    ensures var f := fs[|fs| - 1];
            Present(fs, opts, k) <==> Present(fs[..|fs| - 1], opts, k) || (Accepted(f, opts) && SeriesOf(f) == k)
  {
    hide Accepted;
    assert forall g :: g in fs <==> g in fs[..|fs| - 1] || g == fs[|fs| - 1];
  }

  lemma PlusSingle(m: SeriesMap, s: PhaseSeries, h: Histogram, k: PhaseSeries)
    ensures var next := Plus(m, map[s := h]);
            && (k in next <==> k in m || k == s)
            && (k in next ==> next[k] == if k == s && k in m then AddHistogram(m[k], h) else if k == s then h else m[k])
  {
    hide AddHistogram;
    AddHistogramUnit(h);
    AddHistogramUnit(Lookup(m, k));
  }

  lemma AddHistogramOf(a: seq<real>, sa: real, b: seq<real>, sb: real, bounds: seq<real>)
    ensures AddHistogram(HistogramOf(a, bounds, sa), HistogramOf(b, bounds, sb)) == HistogramOf(a + b, bounds, sa + sb)
  {
    CumulativeAppend(a, b, BoundSet(bounds));
  }

  lemma {:induction false} AllOnOneLine(fs: seq<Family>, bounds: seq<real>, show: Printer, conv: Strconv, line: string)
    requires Exportable(fs, bounds, show, conv) && line in PrintSamples(AllSamples(fs, bounds, show))
    ensures '\n' !in line
  {
    hide PrintSample, FamilySamples, Readable;
    var n := |fs| - 1;
    var before, f := AllSamples(fs[..n], bounds, show), fs[n];
    assert f in fs && f in [f];
    PrintAppend(before, FamilySamples(f, bounds, show));
    if line in PrintSamples(before) {
      AllOnOneLine(fs[..n], bounds, show, conv, line);
    } else {
      var i :| 0 <= i < |FamilySamples(f, bounds, show)| && line == PrintSample(FamilySamples(f, bounds, show)[i]);
      FamilyPrintable(f, bounds, show, conv, i);
      PrintedOnOneLine(FamilySamples(f, bounds, show)[i]);
    }
  }

  lemma FamilyPrintable(f: Family, bounds: seq<real>, show: Printer, conv: Strconv, i: nat)
    requires Exportable([f], bounds, show, conv) && i < |FamilySamples(f, bounds, show)|
    ensures Printable(FamilySamples(f, bounds, show)[i])
  {
    hide Printable, CountLe;
    assert f in [f] && ReadableCount(show, conv, |f.samples|);
    if i < |bounds| {
      assert bounds[i] in bounds && ReadableCount(show, conv, CountLe(f.samples, Finite(bounds[i])));
      SamplePrintable(f, "bucket", [("le", show(bounds[i]))], show(CountLe(f.samples, Finite(bounds[i])) as real));
    } else if i == |bounds| {
      SamplePrintable(f, "bucket", [("le", "+Inf")], show(|f.samples| as real));
    } else {
      assert Names(f) + [] == Names(f);
      SamplePrintable(f, "sum", [], show(f.sum));
      SamplePrintable(f, "count", [], show(|f.samples| as real));
    }
  }

  /** Scanning an export yields, for each accepted series, the histogram of all its samples. */
  lemma ExportParses(fs: seq<Family>, bounds: seq<real>, show: Printer, opts: TuningOptions, conv: Strconv)
    requires Exportable(fs, bounds, show, conv)
    ensures IsDump(Parse(Render(fs, bounds, show), opts, conv), fs, bounds, opts)
  {
    hide PrintSample, IsDump, Exportable, AllSamples, Decode;
    var lines := PrintSamples(AllSamples(fs, bounds, show));
    DumpParses(fs, bounds, show, opts, conv);
    if lines == [] {
      EmptyText(opts, conv);
    } else {
      forall i | 0 <= i < |lines| ensures '\n' !in lines[i] {
        AllOnOneLine(fs, bounds, show, conv, lines[i]);
      }
      SplitJoin(lines, '\n');
    }
  }

  lemma EmptyText(opts: TuningOptions, conv: Strconv)
    ensures Parse("", opts, conv) == SumOf([], opts, conv)
  {
    assert Decode("", opts, conv).None?;
    hide Decode;
    assert Split("", '\n') == [""] && [""][..0] == [];
    PlusUnit(map[]);
  }

  /** Adding up two status classes of one series keeps its p95 between theirs. */
  lemma MergedClassesInRange(a: seq<real>, sa: real, b: seq<real>, sb: real, bounds: seq<real>)
    requires a != [] && b != []
    ensures var pa, pb := Summary(HistogramOf(a, bounds, sa)).p95, Summary(HistogramOf(b, bounds, sb)).p95;
            var p := Summary(AddHistogram(HistogramOf(a, bounds, sa), HistogramOf(b, bounds, sb))).p95;
            (pa <= p <= pb) || (pb <= p <= pa)
  {
    hide Cumulative, AddBuckets, BoundSet;
    var ca, cb := Cumulative(a, BoundSet(bounds)), Cumulative(b, BoundSet(bounds));
    CumulativeIsCumulative(a, BoundSet(bounds));
    CumulativeIsCumulative(b, BoundSet(bounds));
    SameBounds(a, b, BoundSet(bounds));
    hide IsCumulative;
    MergeInRange(ca, |a| as real, cb, |b| as real, 0.95);
  }

  lemma SameBounds(a: seq<real>, b: seq<real>, bounds: set<Bound>)
    ensures Cumulative(a, bounds).Keys == Cumulative(b, bounds).Keys
  {
  }

  // ---------- Coverage ----------

  /** How many samples, multiplied by the factor, stay within the limit. */
  function Covered(samples: seq<real>, factor: real, limit: int): nat {
    if samples == [] then 0
    else (if samples[0] * factor <= limit as real then 1 else 0) + Covered(samples[1..], factor, limit)
  }

  lemma {:induction false} CountedAreCovered(samples: seq<real>, x: real, factor: real, limit: int)
    requires factor >= 0.0 && x * factor <= limit as real
    ensures CountLe(samples, Finite(x)) <= Covered(samples, factor, limit)
  {
    if samples != [] {
      CountedAreCovered(samples[1..], x, factor, limit);
      if samples[0] <= x {
        MulMonotone(samples[0], x, factor);
      }
    }
  }

  /** When the 95% target falls in a finite bucket and the upper limit leaves room for the p95 with its safety margin,
      the recommended read timeout covers at least 95% of the samples, each with the safety margin. */
  lemma EndToEndCoverage(fs: seq<Family>, bounds: seq<real>, show: Printer, opts: TuningOptions, conv: Strconv,
                         entries: seq<Entry>, e: Entry)
    requires Exportable(fs, bounds, show, conv) && ValidOptions(opts)
    requires IsReport(Parse(Render(fs, bounds, show), opts, conv), opts, entries) && e in entries
    requires var samples := Gathered(fs, opts, Total(EntryKey(e)));
             && InFiniteBucket(samples, BoundSet(bounds), 0.95)
             && Quantile(Cumulative(samples, BoundSet(bounds)), |samples| as real, 0.95) * opts.safetyFactor
                  <= opts.maxReadSeconds as real
    ensures var samples := Gathered(fs, opts, Total(EntryKey(e)));
            Covered(samples, opts.safetyFactor, e.recommended.read) >= Ceil(|samples| as real * 0.95)
  {
    hide *;
    var m, k := Parse(Render(fs, bounds, show), opts, conv), Total(EntryKey(e));
    var samples := Gathered(fs, opts, k);
    ExportParses(fs, bounds, show, opts, conv);
    EntryTimeout(m, opts, entries, e);
    DumpP95(m, fs, bounds, opts, k);
    SamplesCovered(samples, BoundSet(bounds), opts, e.recommended.read);
  }

  lemma DumpP95(m: SeriesMap, fs: seq<Family>, bounds: seq<real>, opts: TuningOptions, k: PhaseSeries)
    requires IsDump(m, fs, bounds, opts) && k in m && m[k].count >= opts.minSamples as real && ValidOptions(opts)
    ensures var samples := Gathered(fs, opts, k);
            && samples != [] && opts.safetyFactor >= 1.0
            && Summary(m[k]).p95 == Quantile(Cumulative(samples, BoundSet(bounds)), |samples| as real, 0.95)
  {
    hide Gathered, Quantile, Cumulative, BoundSet;
    assert m[k] == HistogramOf(Gathered(fs, opts, k), bounds, GatheredSum(fs, opts, k));
  }

  lemma SamplesCovered(samples: seq<real>, bounds: set<Bound>, opts: TuningOptions, limit: int)
    requires samples != [] && opts.safetyFactor >= 1.0
    requires InFiniteBucket(samples, bounds, 0.95)
    requires Quantile(Cumulative(samples, bounds), |samples| as real, 0.95) * opts.safetyFactor <= limit as real
    ensures Covered(samples, opts.safetyFactor, limit) >= Ceil(|samples| as real * 0.95)
  {
    hide CountLe, Cumulative, Ceil, Covered, Quantile, InFiniteBucket;
    QuantileCovers(samples, bounds, 0.95);
    var p95 := Quantile(Cumulative(samples, bounds), |samples| as real, 0.95);
    CountedAreCovered(samples, p95, opts.safetyFactor, limit);
  }

  /** A reported entry carries the recommendation for its own series, which covers the p95 whenever the limit does. */
  lemma EntryTimeout(m: SeriesMap, opts: TuningOptions, entries: seq<Entry>, e: Entry)
    requires ValidOptions(opts) && IsReport(m, opts, entries) && e in entries
    ensures var k := Total(EntryKey(e));
            k in m && m[k].count >= opts.minSamples as real &&
            var wanted := Summary(m[k]).p95 * opts.safetyFactor;
            (wanted <= e.recommended.read as real <==> wanted <= opts.maxReadSeconds as real)
  {
    hide Summary, IsReport, RecommendTimeouts, ValidOptions;
    var key := EntryKey(e);
    Selection.ReportHolds(m, opts, entries, e);
    PhaseListed(m, Total(key), opts);
    var phases := PhasesOf(m, key, opts);
    ReadTimeoutCovers(PhaseOrZero(phases, "connect"), Summary(m[Total(key)]), opts);
  }

  /** Each timeout of an entry is the least one covering that entry's own phase: connect for the "connect" series when
      it has enough samples, read for the "total" series. */
  lemma EntryTimeoutsLeast(m: SeriesMap, opts: TuningOptions, entries: seq<Entry>, e: Entry)
    requires ValidOptions(opts) && IsReport(m, opts, entries) && e in entries
    ensures var connect, total := PhaseSeries(EntryKey(e), "connect"), Total(EntryKey(e));
            && Kept(m, total, opts)
            && (Summary(m[total]).p95 > 0.0 ==>
                  IsLeastCover(e.recommended.read, Summary(m[total]).p95, opts.minReadMs, opts.maxReadSeconds, opts))
            && (Kept(m, connect, opts) && Summary(m[connect]).p95 > 0.0 ==>
                  IsLeastCover(e.recommended.connect, Summary(m[connect]).p95, opts.minConnectMs,
                               opts.maxConnectSeconds, opts))
  {
    hide Summary, IsReport, RecommendTimeouts, ValidOptions, IsLeastCover;
    var key := EntryKey(e);
    Selection.ReportHolds(m, opts, entries, e);
    PhaseListed(m, Total(key), opts);
    PhaseListed(m, PhaseSeries(key, "connect"), opts);
    var phases := PhasesOf(m, key, opts);
    TimeoutsLeast(PhaseOrZero(phases, "connect"), PhaseOrZero(phases, "total"), opts);
  }

  // ---------- What the report tells ----------

  predicate Near(a: real, b: real) {
    b - 0.005 <= a <= b + 0.005
  }

  /** A phase as reported, in milliseconds to within 0.005: the whole number of its samples, and their mean, p95 and
      p99. */
  predicate Tells(p: PhaseSummary, st: SeriesStats) {
    && (st.count >= 0.0 ==> p.samples as real <= st.count < p.samples as real + 1.0)
    && Near(p.meanMs, st.mean * 1000.0) && Near(p.p95Ms, st.p95 * 1000.0) && Near(p.p99Ms, st.p99 * 1000.0)
  }

  lemma RoundedTells(st: SeriesStats)
    ensures Tells(Rounded(st), st)
  {
    hide Round2;
    Round2Close(st.mean * 1000.0);
    Round2Close(st.p95 * 1000.0);
    Round2Close(st.p99 * 1000.0);
  }

  /** An entry has exactly the phases of its own key with enough samples, each told by its own series, and leads with
      the total. */
  lemma EntryTells(m: SeriesMap, opts: TuningOptions, entries: seq<Entry>, e: Entry)
    requires IsReport(m, opts, entries) && e in entries
    ensures var key := SeriesKey(e.routeId, e.upstreamId, e.serviceId);
            && Kept(m, PhaseSeries(key, "total"), opts)
            && Tells(e.latency, Summary(m[PhaseSeries(key, "total")]))
            && (forall name :: name in e.phases <==> Kept(m, PhaseSeries(key, name), opts))
            && (forall name :: name in e.phases ==> Tells(e.phases[name], Summary(m[PhaseSeries(key, name)])))
  {
    hide Summary, Rounded, Tells, IsReport, Kept;
    var key := EntryKey(e);
    Selection.ReportHolds(m, opts, entries, e);
    PhaseListed(m, Total(key), opts);
    RoundedTells(Summary(m[Total(key)]));
    forall name
      ensures name in e.phases <==> Kept(m, PhaseSeries(key, name), opts)
      ensures name in e.phases ==>
        PhaseSeries(key, name) in m && Tells(e.phases[name], Summary(m[PhaseSeries(key, name)]))
    {
      PhaseTold(m, opts, e, name);
    }
  }

  lemma PhaseTold(m: SeriesMap, opts: TuningOptions, e: Entry, name: string)
    requires e == EntryOf(m, EntryKey(e), opts)
    ensures var k := PhaseSeries(EntryKey(e), name);
            && (name in e.phases <==> Kept(m, k, opts))
            && (name in e.phases ==> k in m && Tells(e.phases[name], Summary(m[k])))
  {
    hide Summary, Rounded, Tells, PhasesOf;
    var k := PhaseSeries(EntryKey(e), name);
    PhaseListed(m, k, opts);
    if k in m {
      RoundedTells(Summary(m[k]));
    }
  }

  lemma SummaryOfSamples(samples: seq<real>, bounds: seq<real>, sum: real)
    requires samples != []
    ensures var st, n := Summary(HistogramOf(samples, bounds, sum)), |samples| as real;
            && st.count == n && st.mean == sum / n
            && st.p95 == Quantile(Cumulative(samples, BoundSet(bounds)), n, 0.95)
            && st.p99 == Quantile(Cumulative(samples, BoundSet(bounds)), n, 0.99)
  {
    hide Cumulative, BoundSet, Quantile;
  }

  /** The same from the samples: how many there are, and their mean, p95 and p99. */
  ghost predicate TellsSamples(p: PhaseSummary, samples: seq<real>, sum: real, bounds: seq<real>) {
    var n := |samples| as real;
    && samples != [] && p.samples == |samples| && Near(p.meanMs, sum / n * 1000.0)
    && Near(p.p95Ms, Quantile(Cumulative(samples, BoundSet(bounds)), n, 0.95) * 1000.0)
    && Near(p.p99Ms, Quantile(Cumulative(samples, BoundSet(bounds)), n, 0.99) * 1000.0)
  }

  /** Every entry of a report on an exporter's text has exactly the phases with enough samples, and tells of each, and
      of the total first, how many samples were exported, and their mean, p95 and p99. */
  lemma ReportTellsSamples(fs: seq<Family>, bounds: seq<real>, show: Printer, opts: TuningOptions, conv: Strconv,
                           entries: seq<Entry>, e: Entry)
    requires Exportable(fs, bounds, show, conv) && ValidOptions(opts)
    requires IsReport(Parse(Render(fs, bounds, show), opts, conv), opts, entries) && e in entries
    ensures "total" in e.phases
    ensures var k := PhaseSeries(SeriesKey(e.routeId, e.upstreamId, e.serviceId), "total");
            TellsSamples(e.latency, Gathered(fs, opts, k), GatheredSum(fs, opts, k), bounds)
    ensures forall name ::
              var k := PhaseSeries(SeriesKey(e.routeId, e.upstreamId, e.serviceId), name);
              && (name in e.phases <==> |Gathered(fs, opts, k)| >= opts.minSamples)
              && (name in e.phases ==>
                    TellsSamples(e.phases[name], Gathered(fs, opts, k), GatheredSum(fs, opts, k), bounds))
  {
    hide *;
    var m, key := Parse(Render(fs, bounds, show), opts, conv), SeriesKey(e.routeId, e.upstreamId, e.serviceId);
    ExportParses(fs, bounds, show, opts, conv);
    EntryTells(m, opts, entries, e);
    forall name
      ensures var k := PhaseSeries(key, name);
              && (Kept(m, k, opts) <==> |Gathered(fs, opts, k)| >= opts.minSamples)
              && (Kept(m, k, opts) ==> k in m)
              && forall p :: k in m && Kept(m, k, opts) && Tells(p, Summary(m[k])) ==>
                   TellsSamples(p, Gathered(fs, opts, k), GatheredSum(fs, opts, k), bounds)
    {
      SeriesTold(m, fs, bounds, opts, PhaseSeries(key, name));
    }
  }

  lemma SeriesTold(m: SeriesMap, fs: seq<Family>, bounds: seq<real>, opts: TuningOptions, k: PhaseSeries)
    requires IsDump(m, fs, bounds, opts) && ValidOptions(opts)
    ensures Kept(m, k, opts) <==> |Gathered(fs, opts, k)| >= opts.minSamples
    ensures Kept(m, k, opts) ==> k in m
    ensures forall p :: k in m && Kept(m, k, opts) && Tells(p, Summary(m[k])) ==>
              TellsSamples(p, Gathered(fs, opts, k), GatheredSum(fs, opts, k), bounds)
  {
    hide Gathered, GatheredSum, Cumulative, BoundSet, Summary, Quantile, Present;
    if k in m {
      SummaryOfKept(m, fs, bounds, opts, k);
    } else {
      NothingGathered(fs, opts, k);
    }
  }

  lemma SummaryOfKept(m: SeriesMap, fs: seq<Family>, bounds: seq<real>, opts: TuningOptions, k: PhaseSeries)
    requires IsDump(m, fs, bounds, opts) && k in m
    ensures m[k] == HistogramOf(Gathered(fs, opts, k), bounds, GatheredSum(fs, opts, k))
    ensures m[k].count == |Gathered(fs, opts, k)| as real
    ensures var samples, n := Gathered(fs, opts, k), |Gathered(fs, opts, k)| as real;
            samples != [] ==>
              && Summary(m[k]).count == n && Summary(m[k]).mean == GatheredSum(fs, opts, k) / n
              && Summary(m[k]).p95 == Quantile(Cumulative(samples, BoundSet(bounds)), n, 0.95)
              && Summary(m[k]).p99 == Quantile(Cumulative(samples, BoundSet(bounds)), n, 0.99)
  {
    hide Gathered, GatheredSum, Cumulative, BoundSet, Summary, Quantile, Present;
    if Gathered(fs, opts, k) != [] {
      SummaryOfSamples(Gathered(fs, opts, k), bounds, GatheredSum(fs, opts, k));
    }
  }
}
