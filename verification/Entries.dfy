/** One report entry per upstream key, slowest first, and the choice of the one to tune. */
module Entries {
  import opened Options
  import opened Histograms
  import opened Sorting
  import opened Timeouts
  import opened LatencySeries

  datatype PhaseSummary = PhaseSummary(samples: int, meanMs: real, p95Ms: real, p99Ms: real)

  datatype Entry = Entry(
    routeId: string, upstreamId: string, serviceId: string,
    latency: PhaseSummary, phases: map<string, PhaseSummary>, recommended: Recommendation)

  function Rounded(st: SeriesStats): PhaseSummary {
    PhaseSummary(Truncate(st.count), Round2(st.mean * 1000.0), Round2(st.p95 * 1000.0), Round2(st.p99 * 1000.0))
  }

  function EntryKey(e: Entry): SeriesKey {
    SeriesKey(e.routeId, e.upstreamId, e.serviceId)
  }

  predicate Slower(a: Entry, b: Entry) {
    a.latency.p95Ms > b.latency.p95Ms
  }

  function Total(key: SeriesKey): PhaseSeries {
    PhaseSeries(key, "total")
  }

  /** The series has enough samples to be reported. */
  predicate Kept(m: SeriesMap, k: PhaseSeries, opts: TuningOptions) {
    k in m && m[k].count >= opts.minSamples as real
  }

  ghost function PhasesOf(m: SeriesMap, key: SeriesKey, opts: TuningOptions): map<string, SeriesStats> {
    var names := set k | k in m && k.key == key && Kept(m, k, opts) :: k.phase;
    map name | name in names :: Summary(m[PhaseSeries(key, name)])
  }

  function PhaseOrZero(phases: map<string, SeriesStats>, name: string): SeriesStats {
    if name in phases then phases[name] else NO_STATS
  }

  function MakeEntry(key: SeriesKey, phases: map<string, SeriesStats>, opts: TuningOptions): (e: Entry)
    ensures EntryKey(e) == key
  {
    var total := PhaseOrZero(phases, "total");
    Entry(key.routeId, key.upstreamId, key.serviceId, Rounded(total),
          map name | name in phases :: Rounded(phases[name]),
          RecommendTimeouts(PhaseOrZero(phases, "connect"), total, opts))
  }

  ghost function EntryOf(m: SeriesMap, key: SeriesKey, opts: TuningOptions): Entry {
    MakeEntry(key, PhasesOf(m, key, opts), opts)
  }

  ghost function EntrySet(m: SeriesMap, opts: TuningOptions): set<Entry> {
    set k | k in m && Kept(m, k, opts) && k.phase == "total" :: EntryOf(m, k.key, opts)
  }

  /** Exactly one entry for every key with a reportable "total" series, and the slowest rounded p95 first. */
  ghost predicate IsReport(m: SeriesMap, opts: TuningOptions, entries: seq<Entry>) {
    SortedBy(entries, Slower) && multiset(entries) == multiset(EntrySet(m, opts))
  }

  lemma PhaseListed(m: SeriesMap, k: PhaseSeries, opts: TuningOptions)
    ensures k.phase in PhasesOf(m, k.key, opts) <==> Kept(m, k, opts)
    ensures Kept(m, k, opts) ==> PhasesOf(m, k.key, opts)[k.phase] == Summary(m[k])
  {
    assert PhaseSeries(k.key, k.phase) == k;
  }

  // ---------- Building the report ----------

  type Aggregate = map<SeriesKey, map<string, SeriesStats>>

  /** The stage after some series have been visited: each reportable one is filed under its key and phase. */
  ghost predicate Filed(m: SeriesMap, opts: TuningOptions, left: set<PhaseSeries>, agg: Aggregate) {
    && (forall k :: k in m && k !in left && Kept(m, k, opts) ==>
          k.key in agg && k.phase in agg[k.key] && agg[k.key][k.phase] == Summary(m[k]))
    && (forall key, name :: key in agg && name in agg[key] ==>
          PhaseSeries(key, name) !in left && Kept(m, PhaseSeries(key, name), opts))
  }

  function FiledUnder(agg: Aggregate, k: PhaseSeries, stats: SeriesStats): Aggregate {
    agg[k.key := (if k.key in agg then agg[k.key] else map[])[k.phase := stats]]
  }

  lemma FiledStep(m: SeriesMap, opts: TuningOptions, left: set<PhaseSeries>, agg: Aggregate, k: PhaseSeries)
    requires Filed(m, opts, left, agg) && k in left && k in m
    ensures !Kept(m, k, opts) ==> Filed(m, opts, left - {k}, agg)
    ensures Kept(m, k, opts) ==> Filed(m, opts, left - {k}, FiledUnder(agg, k, Summary(m[k])))
  {
    hide Summary;
  }

  method AggregateByKey(series: map<PhaseSeries, HistogramSeries>, opts: TuningOptions) returns (agg: Aggregate)
    ensures forall key :: key in agg ==> agg[key] == PhasesOf(View(series), key, opts)
    ensures forall key :: key !in agg ==> PhasesOf(View(series), key, opts) == map[]
  {
    hide Summary, PhasesOf, Filed;
    ghost var m := View(series);
    agg := map[];
    NoneFiled(m, opts);
    assert m.Keys == series.Keys;
    var left := series.Keys;
    while left != {}
      invariant left <= series.Keys && Filed(m, opts, left, agg)
      decreases left
    {
      var k :| k in left;
      FiledStep(m, opts, left, agg, k);
      ghost var filed := FiledUnder(agg, k, Summary(m[k]));
      left := left - {k};
      var hist := series[k];
      assert m[k] == hist.Contents();
      if hist.Count < opts.minSamples as real {
        continue;
      }
      var stats := SummarizeHistogram(hist);
      if k.key !in agg {
        agg := agg[k.key := map[]];
      }
      agg := agg[k.key := agg[k.key][k.phase := stats]];
      assert agg == filed;
    }
    forall key ensures (if key in agg then agg[key] else map[]) == PhasesOf(m, key, opts) {
      FiledAll(m, opts, agg, key);
    }
  }

  lemma NoneFiled(m: SeriesMap, opts: TuningOptions)
    ensures Filed(m, opts, m.Keys, map[])
  {
  }

  lemma FiledAll(m: SeriesMap, opts: TuningOptions, agg: Aggregate, key: SeriesKey)
    requires Filed(m, opts, {}, agg)
    ensures (if key in agg then agg[key] else map[]) == PhasesOf(m, key, opts)
  {
    hide Summary;
    var have, want := if key in agg then agg[key] else map[], PhasesOf(m, key, opts);
    forall name ensures name in have <==> name in want
                ensures name in have ==> have[name] == want[name] {
      PhaseListed(m, PhaseSeries(key, name), opts);
    }
  }

  /** The stage after some keys have been visited: each one with a "total" phase has its entry. */
  ghost predicate Collected(m: SeriesMap, opts: TuningOptions, agg: Aggregate, left: set<SeriesKey>, done: set<Entry>) {
    forall e :: e in done <==>
      var key := EntryKey(e);
      key in agg && key !in left && "total" in agg[key] && e == EntryOf(m, key, opts)
  }

  lemma NoneCollected(m: SeriesMap, opts: TuningOptions, agg: Aggregate)
    ensures Collected(m, opts, agg, agg.Keys, {})
  {
    hide EntryOf;
  }

  lemma CollectedStep(m: SeriesMap, opts: TuningOptions, agg: Aggregate, left: set<SeriesKey>, done: set<Entry>,
                      key: SeriesKey)
    requires Collected(m, opts, agg, left, done) && key in left && key in agg
    ensures "total" !in agg[key] ==> Collected(m, opts, agg, left - {key}, done)
    ensures "total" in agg[key] ==> Collected(m, opts, agg, left - {key}, done + {EntryOf(m, key, opts)})
    ensures EntryOf(m, key, opts) !in done
  {
    hide MakeEntry, PhasesOf;
    assert EntryKey(EntryOf(m, key, opts)) == key;
  }

  method BuildLatencyEntries(series: map<PhaseSeries, HistogramSeries>, opts: TuningOptions)
    returns (entries: seq<Entry>)
    ensures IsReport(View(series), opts, entries)
  {
    hide PhasesOf, MakeEntry, Collected;
    ghost var m := View(series);
    var agg := AggregateByKey(series, opts);
    entries := [];
    ghost var done: set<Entry> := {};
    var left := agg.Keys;
    NoneCollected(m, opts, agg);
    while left != {}
      invariant left <= agg.Keys && multiset(entries) == multiset(done)
      invariant Collected(m, opts, agg, left, done)
      decreases left
    {
      var key :| key in left;
      var phases := agg[key];
      CollectedStep(m, opts, agg, left, done, key);
      left := left - {key};
      if "total" !in phases {
        continue;
      }
      OneMoreEntry(entries, done, EntryOf(m, key, opts));
      entries := entries + [MakeEntry(key, phases, opts)];
      done := done + {EntryOf(m, key, opts)};
    }
    AllCollected(m, opts, agg, done);
    entries := Sort(entries, Slower);
  }

  lemma OneMoreEntry(entries: seq<Entry>, done: set<Entry>, e: Entry)
    requires multiset(entries) == multiset(done) && e !in done
    ensures multiset(entries + [e]) == multiset(done + {e})
  {
  }

  lemma AllCollected(m: SeriesMap, opts: TuningOptions, agg: Aggregate, done: set<Entry>)
    requires Collected(m, opts, agg, {}, done)
    requires forall key :: key in agg ==> agg[key] == PhasesOf(m, key, opts)
    requires forall key :: key !in agg ==> PhasesOf(m, key, opts) == map[]
    ensures done == EntrySet(m, opts)
  {
    hide EntrySet, EntryOf, PhasesOf;
    forall e ensures e in done <==> e in EntrySet(m, opts) {
      EntryListed(m, opts, e);
      assert EntryKey(e) !in agg ==> PhasesOf(m, EntryKey(e), opts) == map[];
    }
  }

  /** The report holds precisely the entries whose key has a reportable "total" series. */
  lemma EntryListed(m: SeriesMap, opts: TuningOptions, e: Entry)
    ensures e in EntrySet(m, opts) <==> Kept(m, Total(EntryKey(e)), opts) && e == EntryOf(m, EntryKey(e), opts)
    ensures Kept(m, Total(EntryKey(e)), opts) <==> "total" in PhasesOf(m, EntryKey(e), opts)
  {
    PhaseListed(m, Total(EntryKey(e)), opts);
    assert forall k :: k in m && k.phase == "total" ==> k == Total(k.key) && EntryKey(EntryOf(m, k.key, opts)) == k.key;
  }
}
