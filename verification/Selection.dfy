/** Picking the entry to tune, with and without filters applied while scanning. */
module Selection {
  import opened Wrappers
  import opened Text
  import opened Options
  import opened Histograms
  import opened Sorting
  import opened Timeouts
  import opened LatencySeries
  import opened Entries

  /** Entry ids are trimmed before they are compared; the scanner compares them as they are. */
  predicate EntryMatches(opts: TuningOptions, e: Entry) {
    && (opts.routeId == "" || TrimSpace(e.routeId) == opts.routeId)
    && (opts.upstreamId == "" || TrimSpace(e.upstreamId) == opts.upstreamId)
  }

  function FirstMatch(entries: seq<Entry>, opts: TuningOptions): Option<Entry> {
    if entries == [] then None
    else if EntryMatches(opts, entries[0]) then Some(entries[0])
    else FirstMatch(entries[1..], opts)
  }

  /** `None` stands for the "no latency series matched" error. Falling back to the first entry, the last resort of the
      program, is never reached: without filters the first entry already matches. */
  function ChooseTuningTarget(entries: seq<Entry>, opts: TuningOptions): Option<Entry>
    requires entries != []
  {
    var found := FirstMatch(entries, opts);
    if found.Some? then found
    else if opts.routeId != "" || opts.upstreamId != "" then None
    else assert false; None
  }

  lemma {:induction false} FirstMatchIsFirst(entries: seq<Entry>, opts: TuningOptions)
    ensures var found := FirstMatch(entries, opts);
            if found.None? then forall i :: 0 <= i < |entries| ==> !EntryMatches(opts, entries[i])
            else exists i :: 0 <= i < |entries| && found.value == entries[i] && EntryMatches(opts, entries[i]) &&
                   forall j :: 0 <= j < i ==> !EntryMatches(opts, entries[j])
  {
    hide EntryMatches;
    if entries != [] && !EntryMatches(opts, entries[0]) {
      FirstMatchIsFirst(entries[1..], opts);
      var found := FirstMatch(entries[1..], opts);
      if found.Some? {
        var i :| 0 <= i < |entries| - 1 && found.value == entries[1..][i] && EntryMatches(opts, entries[1..][i]) &&
                 forall j :: 0 <= j < i ==> !EntryMatches(opts, entries[1..][j]);
        assert found.value == entries[i + 1];
        assert forall j :: 0 < j < i + 1 ==> entries[j] == entries[1..][j - 1];
      } else {
        assert forall j :: 0 < j < |entries| ==> entries[j] == entries[1..][j - 1];
      }
    }
  }

  /** Nothing that matches is slower than the chosen entry. */
  lemma ChosenIsSlowest(entries: seq<Entry>, opts: TuningOptions)
    requires SortedBy(entries, Slower) && entries != []
    ensures var found := ChooseTuningTarget(entries, opts);
            if found.None? then forall e :: e in entries ==> !EntryMatches(opts, e)
            else found.value in entries && EntryMatches(opts, found.value) &&
                 forall e :: e in entries && EntryMatches(opts, e) ==> e.latency.p95Ms <= found.value.latency.p95Ms
  {
    hide EntryMatches, FirstMatch;
    FirstMatchIsFirst(entries, opts);
    var found := FirstMatch(entries, opts);
    if found.Some? {
      var i :| 0 <= i < |entries| && found.value == entries[i] && EntryMatches(opts, entries[i]) &&
               forall j :: 0 <= j < i ==> !EntryMatches(opts, entries[j]);
      forall e | e in entries && EntryMatches(opts, e) ensures e.latency.p95Ms <= found.value.latency.p95Ms {
        var k :| 0 <= k < |entries| && entries[k] == e;
        assert i < k ==> !Slower(entries[k], entries[i]);
      }
    }
  }

  lemma ReportHolds(m: SeriesMap, opts: TuningOptions, entries: seq<Entry>, e: Entry)
    requires IsReport(m, opts, entries)
    ensures e in entries <==> Kept(m, Total(EntryKey(e)), opts) && e == EntryOf(m, EntryKey(e), opts)
  {
    EntryListed(m, opts, e);
    assert e in entries <==> e in multiset(entries);
  }

  /** The scanner lets only matching keys through. */
  lemma ParsedKeysMatch(metrics: string, opts: TuningOptions, conv: Strconv, k: PhaseSeries)
    requires k in Parse(metrics, opts, conv)
    ensures KeyMatches(opts, k.key)
  {
    FilterPushdown(Split(metrics, '\n'), opts, conv);
  }

  /** On a scanned text the choice never fails, and no matching key has a p95 more than 0.01 ms above the chosen
      one's. */
  lemma TargetNearSlowest(metrics: string, opts: TuningOptions, conv: Strconv, entries: seq<Entry>)
    requires ValidOptions(opts) && entries != [] && IsReport(Parse(metrics, opts, conv), opts, entries)
    ensures ChooseTuningTarget(entries, opts) == Some(entries[0])
    ensures var m := Parse(metrics, opts, conv);
            var chosen := Total(EntryKey(entries[0]));
            && Kept(m, chosen, opts)
            && forall key :: Kept(m, Total(key), opts) ==>
                 Summary(m[Total(key)]).p95 * 1000.0 <= Summary(m[chosen]).p95 * 1000.0 + 0.01
  {
    hide Summary, Parse;
    var m := Parse(metrics, opts, conv);
    var top := entries[0];
    ReportHolds(m, opts, entries, top);
    ParsedKeysMatch(metrics, opts, conv, Total(EntryKey(top)));
    assert EntryMatches(opts, top);
    forall key | Kept(m, Total(key), opts)
      ensures Summary(m[Total(key)]).p95 * 1000.0 <= Summary(m[Total(EntryKey(top))]).p95 * 1000.0 + 0.01
    {
      TopNotSlower(m, opts, entries, key);
    }
  }

  lemma EntryP95(m: SeriesMap, opts: TuningOptions, key: SeriesKey)
    requires Kept(m, Total(key), opts)
    ensures EntryOf(m, key, opts).latency.p95Ms == Round2(Summary(m[Total(key)]).p95 * 1000.0)
  {
    hide Summary, Round2;
    PhaseListed(m, Total(key), opts);
  }

  lemma TopNotSlower(m: SeriesMap, opts: TuningOptions, entries: seq<Entry>, key: SeriesKey)
    requires entries != [] && IsReport(m, opts, entries) && Kept(m, Total(key), opts)
    ensures Kept(m, Total(EntryKey(entries[0])), opts)
    ensures Summary(m[Total(key)]).p95 * 1000.0 <= Summary(m[Total(EntryKey(entries[0]))]).p95 * 1000.0 + 0.01
  {
    hide Summary, Round2, MakeEntry, PhasesOf;
    var e, top := EntryOf(m, key, opts), entries[0];
    ReportHolds(m, opts, entries, e);
    ReportHolds(m, opts, entries, top);
    var i :| 0 <= i < |entries| && entries[i] == e;
    assert e.latency.p95Ms <= top.latency.p95Ms by {
      assert i > 0 ==> !Slower(entries[i], entries[0]);
    }
    EntryP95(m, opts, key);
    EntryP95(m, opts, EntryKey(top));
    Round2Close(Summary(m[Total(key)]).p95 * 1000.0);
    Round2Close(Summary(m[Total(EntryKey(top))]).p95 * 1000.0);
  }

  // ---------- Filtering before or after ----------

  /** An id that trimming leaves alone, or takes away altogether. */
  predicate Tame(id: string) {
    Bare(id, IsSpace) || TrimSpace(id) == ""
  }

  predicate TameIds(key: SeriesKey) {
    Tame(key.routeId) && Tame(key.upstreamId)
  }

  /** No valid options tell the two filters apart on this entry. */
  ghost predicate FiltersAgreeOn(e: Entry) {
    forall opts :: ValidOptions(opts) ==> (EntryMatches(opts, e) <==> KeyMatches(opts, EntryKey(e)))
  }

  const ANY_OPTIONS := TuningOptions("", "", 1, 0.95, 3.0, 300.0, 1000.0, 10, 120, true)

  /** Filtering by trimmed ids and filtering by ids as they are agree exactly on the entries with tame ids. */
  lemma FiltersAgreeExactly(e: Entry)
    ensures FiltersAgreeOn(e) <==> TameIds(EntryKey(e))
  {
    hide TrimSpace, Bare;
    if TameIds(EntryKey(e)) {
      forall opts | ValidOptions(opts) ensures EntryMatches(opts, e) <==> KeyMatches(opts, EntryKey(e)) {
        TameMatches(opts, e);
      }
    } else {
      assert ValidOptions(ANY_OPTIONS.(routeId := TrimSpace(e.routeId))) by { BareEmpty(); }
      assert ValidOptions(ANY_OPTIONS.(upstreamId := TrimSpace(e.upstreamId))) by { BareEmpty(); }
      UntameDiffers(e.routeId);
      UntameDiffers(e.upstreamId);
    }
  }

  lemma BareEmpty()
    ensures Bare("", IsSpace)
  {
  }

  lemma UntameDiffers(id: string)
    ensures !Tame(id) ==> TrimSpace(id) != "" && TrimSpace(id) != id
  {
    hide TrimSpace;
  }

  lemma TameMatches(opts: TuningOptions, e: Entry)
    requires ValidOptions(opts) && TameIds(EntryKey(e))
    ensures EntryMatches(opts, e) <==> KeyMatches(opts, EntryKey(e))
  {
    TameId(e.routeId, opts.routeId);
    TameId(e.upstreamId, opts.upstreamId);
    hide Bare, TrimSpace, Tame;
  }

  lemma TameId(id: string, wanted: string)
    requires Tame(id) && Bare(wanted, IsSpace)
    ensures wanted != "" ==> (TrimSpace(id) == wanted <==> id == wanted)
  {
    assert Bare(wanted, IsSpace) ==> TrimSpace(wanted) == wanted;
    hide TrimSpace, Bare;
  }

  lemma RestrictKeepsEntry(m: SeriesMap, opts: TuningOptions, key: SeriesKey)
    requires KeyMatches(opts, key)
    ensures EntryOf(RestrictTo(m, opts), key, opts) == EntryOf(m, key, opts)
    ensures Kept(RestrictTo(m, opts), Total(key), opts) <==> Kept(m, Total(key), opts)
  {
    hide Summary, MakeEntry;
    var r := RestrictTo(m, opts);
    forall name ensures Kept(r, PhaseSeries(key, name), opts) <==> Kept(m, PhaseSeries(key, name), opts) {
    }
    forall name ensures name in PhasesOf(r, key, opts) <==> name in PhasesOf(m, key, opts) {
      PhaseListed(r, PhaseSeries(key, name), opts);
      PhaseListed(m, PhaseSeries(key, name), opts);
    }
    assert PhasesOf(r, key, opts) == PhasesOf(m, key, opts);
  }

  lemma NarrowIsMatching(m: SeriesMap, opts: TuningOptions, wide: seq<Entry>, narrow: seq<Entry>, e: Entry)
    requires IsReport(m, opts, wide) && IsReport(RestrictTo(m, opts), opts, narrow)
    requires ValidOptions(opts) && forall k :: k in m ==> TameIds(k.key)
    ensures e in narrow <==> e in wide && EntryMatches(opts, e)
  {
    ReportHolds(m, opts, wide, e);
    ReportHolds(RestrictTo(m, opts), opts, narrow, e);
    var key := EntryKey(e);
    hide EntryOf, IsReport, EntryMatches, KeyMatches, TameIds, ValidOptions;
    assert Total(key).key == key;
    if Total(key) in m {
      TameMatches(opts, e);
    }
    if KeyMatches(opts, key) {
      RestrictKeepsEntry(m, opts, key);
    } else {
      assert Total(key) !in RestrictTo(m, opts);
    }
  }

  /** With tame ids, filtering while scanning and filtering while choosing select the same rounded p95, and fail
      together. */
  lemma FilterChoice(metrics: string, opts: TuningOptions, conv: Strconv, wide: seq<Entry>, narrow: seq<Entry>)
    requires IsReport(Parse(metrics, Unfiltered(opts), conv), opts, wide)
    requires IsReport(Parse(metrics, opts, conv), opts, narrow)
    requires ValidOptions(opts) && forall k :: k in Parse(metrics, Unfiltered(opts), conv) ==> TameIds(k.key)
    ensures narrow == [] <==> wide == [] || ChooseTuningTarget(wide, opts).None?
    ensures narrow != [] ==>
      && ChooseTuningTarget(narrow, opts).Some?
      && ChooseTuningTarget(narrow, opts).value.latency.p95Ms == ChooseTuningTarget(wide, opts).value.latency.p95Ms
  {
    hide EntryMatches, ChooseTuningTarget;
    var m := Parse(metrics, Unfiltered(opts), conv);
    FilterPushdown(Split(metrics, '\n'), opts, conv);
    forall e ensures e in narrow <==> e in wide && EntryMatches(opts, e) {
      NarrowIsMatching(m, opts, wide, narrow, e);
    }
    if narrow != [] {
      assert narrow[0] in narrow;
      ChosenIsSlowest(narrow, opts);
    }
    if wide != [] {
      ChosenIsSlowest(wide, opts);
    }
  }
}
