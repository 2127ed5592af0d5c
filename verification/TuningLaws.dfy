/** What a call of the tuning tool can and cannot do to the gateway, and what a second call adds. */
module TuningLaws {
  import opened Wrappers
  import opened Text
  import opened Options
  import opened Histograms
  import opened Timeouts
  import opened Encoding
  import opened Gateway
  import opened Entries
  import opened Selection
  import opened TuningSpec
  import LatencySeries

  /** Everything about the resources but the timeouts. */
  function Stripped(resources: map<string, Fields>): map<string, Fields> {
    map p | p in resources :: resources[p] - {"timeout"}
  }

  /** `rec` is what the report on some metrics puts first for the upstream `id`. */
  ghost predicate Recommended(conv: Strconv, opts: TuningOptions, metrics: string, id: string, rec: Recommendation) {
    exists entries: seq<Entry> :: Reported(conv, opts, metrics, entries) && entries != [] &&
      id == TrimSpace(entries[0].upstreamId) && rec == entries[0].recommended
  }

  lemma AppliedChangesTimeout(s: Store, id: string, rec: Recommendation)
    requires UpstreamPath(id) in s.resources
    ensures var s', p := Applied(s, id, rec), UpstreamPath(id);
            && p == "/apisix/admin/upstreams/" + Escape(Segment, id)
            && s'.metrics == s.metrics && s'.resources.Keys == s.resources.Keys
            && Stripped(s'.resources) == Stripped(s.resources)
            && (forall q :: q in s.resources && q != p ==> s'.resources[q] == s.resources[q])
            && "timeout" in s'.resources[p]
            && s'.resources[p]["timeout"] ==
                 Obj(map["connect" := Int(rec.connect), "send" := Int(rec.send), "read" := Int(rec.read)])
  {
    UpstreamPathPrefix(id);
    hide UpstreamPath;
    var fields := s.resources[UpstreamPath(id)];
    assert WithTimeout(fields, rec) - {"timeout"} == fields - {"timeout"};
  }

  /** No call touches anything but one timeout, and it sets the three parts of that one to what is recommended for that
      upstream. A call that reports an update made it; a dry run, an empty report and an entry without an upstream id
      leave all as it was. */
  lemma TuneChangesOneTimeout(b: Behaviour, conv: Strconv, opts: TuningOptions, dryRun: bool, entries: seq<Entry>,
                              s: Store, s': Store, r: Result<Report, TuneError>)
    requires TuneOutcome(b, conv, opts, dryRun, entries, s, s', r)
    ensures s'.metrics == s.metrics && s'.resources.Keys == s.resources.Keys
    ensures Stripped(s'.resources) == Stripped(s.resources)
    ensures forall p :: p in s.resources && s'.resources[p] != s.resources[p] ==>
      && !dryRun && entries != []
      && p == "/apisix/admin/upstreams/" + Escape(Segment, TrimSpace(entries[0].upstreamId))
      && "timeout" in s'.resources[p]
      && (var rec := entries[0].recommended;
          s'.resources[p]["timeout"] ==
            Obj(map["connect" := Int(rec.connect), "send" := Int(rec.send), "read" := Int(rec.read)]))
      && Recommended(conv, opts, s.metrics, TrimSpace(entries[0].upstreamId), entries[0].recommended)
    ensures dryRun || entries == [] || TrimSpace(entries[0].upstreamId) == "" ==> s' == s
    ensures r.Ok? && r.value.Planned? && !dryRun ==>
      && entries != []
      && var rec, p := entries[0].recommended, "/apisix/admin/upstreams/" + Escape(Segment, r.value.plan.upstreamId);
      && p in s'.resources && "timeout" in s'.resources[p]
      && s'.resources[p]["timeout"] ==
           Obj(map["connect" := Int(rec.connect), "send" := Int(rec.send), "read" := Int(rec.read)])
  {
    hide UpstreamPath, Reported, Applied, Stripped, CurrentTimeout, Deniable, Answer, WithTimeout, TrimSpace, Escape;
    if s' != s || (r.Ok? && r.value.Planned? && !dryRun) {
      AppliedChangesTimeout(s, TrimSpace(entries[0].upstreamId), entries[0].recommended);
      assert Recommended(conv, opts, s.metrics, TrimSpace(entries[0].upstreamId), entries[0].recommended);
    }
  }

  /** What a call that found an upstream to tune tells about it: the mode, the entry, and the timeout it had before. */
  lemma ReportTells(b: Behaviour, conv: Strconv, opts: TuningOptions, dryRun: bool, entries: seq<Entry>,
                    s: Store, s': Store, plan: Plan)
    requires TuneOutcome(b, conv, opts, dryRun, entries, s, s', Ok(Planned(plan)))
    ensures entries != [] && plan.entry == entries[0] && plan.scanned == |entries|
    ensures plan.dryRun == dryRun && plan.updated == !dryRun
    ensures plan.upstreamId == TrimSpace(entries[0].upstreamId) != ""
    ensures "/apisix/admin/upstreams/" + Escape(Segment, plan.upstreamId) in s.resources
    ensures var fields := s.resources["/apisix/admin/upstreams/" + Escape(Segment, plan.upstreamId)];
            var was := if "timeout" in fields && fields["timeout"].Obj? then fields["timeout"].fields else map[];
            && (if "connect" in was then plan.before.connect == was["connect"] else plan.before.connect == Null)
            && (if "send" in was then plan.before.send == was["send"] else plan.before.send == Null)
            && (if "read" in was then plan.before.read == was["read"] else plan.before.read == Null)
  {
    hide UpstreamPath, Reported, Applied, Answer, TrimSpace, Escape, WithTimeout;
    UpstreamPathPrefix(TrimSpace(entries[0].upstreamId));
  }

  // ---------- Failures that changed something ----------

  predicate Installed(s: Store, id: string, rec: Recommendation)
    requires UpstreamPath(id) in s.resources
  {
    var fields := s.resources[UpstreamPath(id)];
    "timeout" in fields && fields["timeout"] == TimeoutValue(rec)
  }

  /** The write for this entry would change the upstream, and the gateway may accept it without the caller knowing. */
  predicate SilentWrite(b: Behaviour, s: Store, target: Entry) {
    var id, rec := TrimSpace(target.upstreamId), target.recommended;
    && id != "" && Readable(b, s, id) && !Installed(s, id, rec)
    && Deniable(b, s, WriteRequest(id, WithTimeout(s.resources[UpstreamPath(id)], rec)))
  }

  lemma InstalledExactly(s: Store, id: string, rec: Recommendation)
    requires UpstreamPath(id) in s.resources
    ensures Applied(s, id, rec) == s <==> Installed(s, id, rec)
  {
    hide UpstreamPath, TimeoutValue;
    var p := UpstreamPath(id);
    if Installed(s, id, rec) {
      assert WithTimeout(s.resources[p], rec) == s.resources[p];
      assert s.resources[p := s.resources[p]] == s.resources;
    } else {
      assert WithTimeout(s.resources[p], rec)["timeout"] == TimeoutValue(rec);
      assert Applied(s, id, rec).resources[p] != s.resources[p];
    }
  }

  /** A call that reports a failure has left the gateway as it was exactly when its write is not a silent one. */
  lemma FailureKeepsExactly(b: Behaviour, s: Store, target: Entry, scanned: nat)
    ensures (forall dryRun, s', e :: EntryRun(b, dryRun, target, scanned, s, s', Err(e)) ==> s' == s) <==>
            !SilentWrite(b, s, target)
  {
    hide EntryRun, UpstreamPath, CurrentTimeout, WithTimeout, WriteRequest, Deniable, Applied, TrimSpace, Installed;
    var id, rec := TrimSpace(target.upstreamId), target.recommended;
    if id != "" && Readable(b, s, id) {
      InstalledExactly(s, id, rec);
      OutcomesExactly(b, false, target, scanned, s, Applied(s, id, rec), Err(PutFailed));
    }
    forall dryRun, s', e
      ensures EntryRun(b, dryRun, target, scanned, s, s', Err(e)) <==>
        EntryOutcome(b, dryRun, target, scanned, s, s', Err(e))
    {
      OutcomesExactly(b, dryRun, target, scanned, s, s', Err(e));
    }
  }

  /** So for a whole call: whatever it fails with, the gateway is untouched, unless the entry it picks makes a silent
      write. */
  lemma FailedCallKeepsExactly(b: Behaviour, conv: Strconv, opts: TuningOptions, entries: seq<Entry>, s: Store)
    ensures (forall dryRun, s', e :: TuneOutcome(b, conv, opts, dryRun, entries, s, s', Err(e)) ==> s' == s) <==>
            !(Reported(conv, opts, s.metrics, entries) && entries != [] && SilentWrite(b, s, entries[0]))
  {
    hide Reported, SilentWrite, EntryRun, EntryOutcome;
    if Reported(conv, opts, s.metrics, entries) && entries != [] {
      FailureKeepsExactly(b, s, entries[0], |entries|);
      forall dryRun, s', e
        ensures EntryRun(b, dryRun, entries[0], |entries|, s, s', Err(e)) <==>
                e != FetchFailed && TuneOutcome(b, conv, opts, dryRun, entries, s, s', Err(e))
      {
        OutcomesExactly(b, dryRun, entries[0], |entries|, s, s', Err(e));
        NoFetchFailure(b, dryRun, entries[0], |entries|, s, s');
      }
      assert forall dryRun, s' :: TuneOutcome(b, conv, opts, dryRun, entries, s, s', Err(FetchFailed)) ==> s' == s;
    }
  }

  /** Every recommendation is between one second and the configured limits. */
  lemma RecommendedInRange(conv: Strconv, opts: TuningOptions, metrics: string, id: string, rec: Recommendation)
    requires Recommended(conv, opts, metrics, id, rec)
    ensures 1 <= rec.connect <= opts.maxConnectSeconds && 1 <= rec.read <= opts.maxReadSeconds && rec.send == rec.read
  {
    hide LatencySeries.Parse, RecommendTimeouts, IsReport, PhasesOf;
    var entries: seq<Entry> :| Reported(conv, opts, metrics, entries) && entries != [] &&
      id == TrimSpace(entries[0].upstreamId) && rec == entries[0].recommended;
    var m, key := LatencySeries.Parse(metrics, opts, conv), EntryKey(entries[0]);
    ReportHolds(m, opts, entries, entries[0]);
    var phases := PhasesOf(m, key, opts);
    RecommendInRange(PhaseOrZero(phases, "connect"), PhaseOrZero(phases, "total"), opts);
  }

  /** One key is strictly slowest, after rounding, among those reported. */
  ghost predicate UniqueTop(entries: seq<Entry>) {
    forall i :: 0 < i < |entries| ==> entries[i].latency.p95Ms < entries[0].latency.p95Ms
  }

  lemma TopAgrees(m: SeriesMap, opts: TuningOptions, a: seq<Entry>, b: seq<Entry>)
    requires IsReport(m, opts, a) && IsReport(m, opts, b) && a != []
    requires UniqueTop(a)
    ensures b != [] && b[0] == a[0]
  {
    hide EntrySet;
    assert multiset(a) == multiset(b);
    assert a[0] in multiset(b);
    var k :| 0 <= k < |b| && b[k] == a[0];
    assert b[0] in multiset(a);
    var j :| 0 <= j < |a| && a[j] == b[0];
    assert k > 0 ==> !Slower(b[k], b[0]);
  }

  /** Tuning again on the same metrics changes nothing, provided the slowest rounded p95 is unique. */
  lemma SecondTuneIsNoOp(b: Behaviour, conv: Strconv, opts: TuningOptions, dryRun: bool, entries1: seq<Entry>,
                         entries2: seq<Entry>, s: Store, s1: Store, s2: Store, plan: Plan, r: Result<Report, TuneError>)
    requires TuneOutcome(b, conv, opts, false, entries1, s, s1, Ok(Planned(plan)))
    requires TuneOutcome(b, conv, opts, dryRun, entries2, s1, s2, r)
    requires UniqueTop(entries1)
    ensures s2 == s1
  {
    hide UpstreamPath, LatencySeries.Parse, IsReport, CurrentTimeout;
    if r != Err(FetchFailed) {
      TopAgrees(LatencySeries.Parse(s.metrics, opts, conv), opts, entries1, entries2);
      AppliedTwice(s, plan.upstreamId, plan.entry.recommended);
    }
  }

  lemma AppliedTwice(s: Store, id: string, rec: Recommendation)
    requires UpstreamPath(id) in s.resources
    ensures Applied(Applied(s, id, rec), id, rec) == Applied(s, id, rec)
  {
    hide UpstreamPath, TimeoutValue;
    var s1, p := Applied(s, id, rec), UpstreamPath(id);
    assert WithTimeout(s1.resources[p], rec) == s1.resources[p];
    assert s1.resources[p := s1.resources[p]] == s1.resources;
  }
}
