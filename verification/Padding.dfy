/** Filters on a whole text: which ids make the scanner and the choice of a target disagree. */
module Padding {
  import opened Text
  import opened Options
  import opened Histograms
  import opened LatencySeries
  import opened Entries
  import opened Exporter
  import opened Samples
  import opened Coverage
  import opened Selection

  /** Filtering the text while scanning leaves nothing exactly when choosing from the unfiltered report fails. */
  ghost predicate FailTogether(metrics: string, opts: TuningOptions, conv: Strconv) {
    forall wide, narrow ::
      IsReport(Parse(metrics, Unfiltered(opts), conv), opts, wide) &&
        IsReport(Parse(metrics, opts, conv), opts, narrow) ==>
        (narrow == [] <==> wide == [] || ChooseTuningTarget(wide, opts).None?)
  }

  /** On the text exported for one histogram, filters fail together under all valid options exactly when its ids are
      tame. */
  lemma FailTogetherExactly(f: Family, bounds: seq<real>, show: Printer, conv: Strconv)
    requires Exportable([f], bounds, show, conv) && f.phase == "total" && f.samples != []
    ensures (forall opts :: ValidOptions(opts) ==> FailTogether(Render([f], bounds, show), opts, conv)) <==>
            TameIds(f.key)
  {
    hide *;
    var text := Render([f], bounds, show);
    if TameIds(f.key) {
      forall opts | ValidOptions(opts) ensures FailTogether(text, opts, conv) {
        TameFailTogether(f, bounds, show, conv, opts);
      }
    } else {
      var opts, wide := UntameReports(f, bounds, show, conv);
      ApartNotTogether(text, opts, conv, wide);
    }
  }

  /** The scanner's filter leaves nothing to report, where the report without it holds an entry to choose. */
  ghost predicate TellApart(metrics: string, opts: TuningOptions, conv: Strconv, wide: seq<Entry>) {
    && IsReport(Parse(metrics, opts, conv), opts, [])
    && IsReport(Parse(metrics, Unfiltered(opts), conv), opts, wide)
    && wide != [] && ChooseTuningTarget(wide, opts).Some?
  }

  lemma ApartNotTogether(metrics: string, opts: TuningOptions, conv: Strconv, wide: seq<Entry>)
    requires TellApart(metrics, opts, conv, wide)
    ensures !FailTogether(metrics, opts, conv)
  {
    hide IsReport, Parse, ChooseTuningTarget;
  }

  lemma TameFailTogether(f: Family, bounds: seq<real>, show: Printer, conv: Strconv, opts: TuningOptions)
    requires Exportable([f], bounds, show, conv) && f.phase == "total" && TameIds(f.key) && ValidOptions(opts)
    ensures FailTogether(Render([f], bounds, show), opts, conv)
  {
    hide Exportable, Render, Parse, TameIds, IsReport, ChooseTuningTarget, HistogramOf, Accepted, ValidOptions;
    var text := Render([f], bounds, show);
    OneFamily(f, bounds, show, Unfiltered(opts), conv);
    forall wide, narrow | IsReport(Parse(text, Unfiltered(opts), conv), opts, wide) &&
                          IsReport(Parse(text, opts, conv), opts, narrow)
      ensures narrow == [] <==> wide == [] || ChooseTuningTarget(wide, opts).None?
    {
      FilterChoice(text, opts, conv, wide, narrow);
    }
  }

  lemma OneFamily(f: Family, bounds: seq<real>, show: Printer, opts: TuningOptions, conv: Strconv)
    requires Exportable([f], bounds, show, conv) && f.phase == "total"
    ensures Parse(Render([f], bounds, show), opts, conv) ==
              if Accepted(f, opts) then map[Total(f.key) := HistogramOf(f.samples, bounds, f.sum)] else map[]
  {
    hide Exportable, Render, Parse, HistogramOf, Accepted;
    hide IsDump, SeriesOf;
    ExportParses([f], bounds, show, opts, conv);
    assert Total(f.key) == SeriesOf(f) by { SeriesIsTotal(f); }
    DumpOfOne(Parse(Render([f], bounds, show), opts, conv), f, bounds, opts);
  }

  lemma SeriesIsTotal(f: Family)
    requires f.phase == "total"
    ensures SeriesOf(f) == Total(f.key)
  {
  }

  lemma DumpOfOne(m: SeriesMap, f: Family, bounds: seq<real>, opts: TuningOptions)
    requires IsDump(m, [f], bounds, opts)
    ensures m == if Accepted(f, opts) then map[SeriesOf(f) := HistogramOf(f.samples, bounds, f.sum)] else map[]
  {
    hide Accepted, SeriesOf, HistogramOf;
    var k := SeriesOf(f);
    forall j ensures Present([f], opts, j) <==> Accepted(f, opts) && j == k {
      assert forall g :: g in [f] <==> g == f;
    }
    GatheredGrows([f], opts, k);
    assert !Present([f][..0], opts, k);
    assert k in m ==> m[k] == HistogramOf(Gathered([f], opts, k), bounds, GatheredSum([f], opts, k));
  }

  /** The filter for the trimmed id tells them apart. */
  lemma UntameReports(f: Family, bounds: seq<real>, show: Printer, conv: Strconv)
    returns (opts: TuningOptions, wide: seq<Entry>)
    requires Exportable([f], bounds, show, conv) && f.phase == "total" && f.samples != [] && !TameIds(f.key)
    ensures ValidOptions(opts) && TellApart(Render([f], bounds, show), opts, conv, wide)
    ensures opts == if Tame(f.key.routeId) then ANY_OPTIONS.(upstreamId := TrimSpace(f.key.upstreamId))
                    else ANY_OPTIONS.(routeId := TrimSpace(f.key.routeId))
  {
    hide Exportable, Render, Parse, TrimSpace, Bare, IsReport, HistogramOf;
    var text, key := Render([f], bounds, show), f.key;
    opts := if Tame(key.routeId) then ANY_OPTIONS.(upstreamId := TrimSpace(key.upstreamId))
            else ANY_OPTIONS.(routeId := TrimSpace(key.routeId));
    BareEmpty();
    UntameDiffers(key.routeId);
    UntameDiffers(key.upstreamId);
    TrimEmpty();
    OneFamily(f, bounds, show, opts, conv);
    OneFamily(f, bounds, show, Unfiltered(opts), conv);
    CountOfSamples(f.samples, bounds, f.sum);
    var e := ReportOfOne(Parse(text, Unfiltered(opts), conv), key, HistogramOf(f.samples, bounds, f.sum), opts);
    wide := [e];
    ReportOfNone(opts);
    assert EntryMatches(opts, e);
    assert ChooseTuningTarget([e], opts).Some?;
  }

  lemma CountOfSamples(samples: seq<real>, bounds: seq<real>, sum: real)
    ensures HistogramOf(samples, bounds, sum).count == |samples| as real
  {
    hide Cumulative;
  }

  lemma TrimEmpty()
    ensures TrimSpace("") == ""
  {
  }

  lemma ReportOfNone(opts: TuningOptions)
    ensures IsReport(map[], opts, [])
  {
  }

  lemma ReportOfOne(m: SeriesMap, key: SeriesKey, h: Histogram, opts: TuningOptions) returns (e: Entry)
    requires m == map[Total(key) := h] && h.count >= opts.minSamples as real
    ensures IsReport(m, opts, [e]) && EntryKey(e) == key
  {
    hide EntrySet, EntryOf, PhasesOf;
    e := EntryOf(m, key, opts);
    assert EntryKey(e) == key by { KeyOfEntry(m, key, opts); }
    forall x ensures x in EntrySet(m, opts) <==> x == e {
      EntryListed(m, opts, x);
    }
    assert EntrySet(m, opts) == {e};
  }

  lemma KeyOfEntry(m: SeriesMap, key: SeriesKey, opts: TuningOptions)
    ensures EntryKey(EntryOf(m, key, opts)) == key
  {
    hide PhasesOf, MakeEntry;
  }

  /** Such a text exists: the decimal lines of one histogram for the route ` r1`. */
  lemma PaddedText(conv: Strconv) returns (wide: seq<Entry>)
    requires conv.parseFloat == ReadWhole
    ensures var f := Family(SeriesKey(" r1", "u1", "s1"), "total", "2xx", [0.5], 1.0);
            TellApart(Render([f], [1.0], ShowWhole), ANY_OPTIONS.(routeId := "r1"), conv, wide)
  {
    var f := Family(SeriesKey(" r1", "u1", "s1"), "total", "2xx", [0.5], 1.0);
    PaddedIsUntame();
    PaddedWellNamed();
    hide *;
    WholeNumbersExportable([f], [1.0], conv);
    var opts;
    opts, wide := UntameReports(f, [1.0], ShowWhole, conv);
  }

  lemma PaddedWellNamed()
    ensures WellNamed(Family(SeriesKey(" r1", "u1", "s1"), "total", "2xx", [0.5], 1.0))
  {
  }

  lemma PaddedIsUntame()
    ensures !Tame(" r1") && TrimSpace(" r1") == "r1" && !TameIds(SeriesKey(" r1", "u1", "s1"))
  {
    assert " r1" == " " + "r1" + "";
    TrimEnclosed(" ", "r1", "", IsSpace);
  }
}
