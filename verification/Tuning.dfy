/** Analysing latency and applying a recommendation to an upstream. */
module Tuning {
  import opened Wrappers
  import opened Text
  import opened Options
  import opened Histograms
  import opened Encoding
  import opened Requests
  import opened Gateway
  import opened Entries
  import opened Selection
  import opened TuningSpec
  import LatencySeries

  method FetchPhaseSeries(g: Server, opts: TuningOptions, conv: Strconv)
    returns (series: Option<map<PhaseSeries, LatencySeries.HistogramSeries>>, ghost m: Message)
    modifies g
    ensures m.request == RequestSpec(GET, "/metrics", None) && g.log == old(g.log) + [m]
    ensures Exchange(g.behaviour, old(g.store), m.request, g.store, m.reply)
    ensures series.Some? <==> m.reply.Text?
    ensures series.Some? ==> LatencySeries.View(series.value) == LatencySeries.Parse(m.reply.body, opts, conv)
  {
    var reply := g.Send(RequestSpec(GET, METRICS, None));
    m := Message(RequestSpec(GET, METRICS, None), reply);
    if !reply.Text? {
      return None, m;
    }
    var parsed := LatencySeries.ParseLatencySeries(reply.body, opts, conv);
    series := Some(parsed);
  }

  method AnalyzeLatency(g: Server, conv: Strconv, args: Args)
    returns (r: Option<seq<Entry>>, opts: TuningOptions, ghost m: Message)
    modifies g
    ensures m.request == RequestSpec(GET, "/metrics", None) && g.log == old(g.log) + [m] && g.store == old(g.store)
    ensures Exchange(g.behaviour, old(g.store), m.request, g.store, m.reply)
    ensures opts == InRange(RawOptions(conv, args))
    ensures r.Some? <==> m.reply.Text?
    ensures r.Some? ==> m.reply.body == g.store.metrics && Reported(conv, opts, m.reply.body, r.value)
  {
    hide RawOptions, InRange;
    opts := DefaultTuningOptions(conv, args);
    var series;
    series, m := FetchPhaseSeries(g, opts, conv);
    MetricsExchange(g.behaviour, old(g.store), g.store, m.reply);
    if series.None? {
      return None, opts, m;
    }
    var entries := BuildLatencyEntries(series.value, opts);
    r := Some(entries);
  }

  lemma IdArgument(id: string, args: Args)
    requires Bare(id, IsSpace) && "id" in args && args["id"] == Str(id)
    ensures AsString(args, "id") == id
  {
  }

  lemma GetUpstreamRequest(conv: Strconv, id: string)
    requires Bare(id, IsSpace) && id != ""
    ensures BuildRequest(conv, "get_upstream", map["id" := Str(id)]) == Some(RequestSpec(GET, UpstreamPath(id), None))
  {
    hide BuildRequest, AdminPath, Escape, AsString;
    IdArgument(id, map["id" := Str(id)]);
    GetRequest(conv, "upstream", map["id" := Str(id)]);
    assert "get_upstream" == "get" + "_" + "upstream" && "upstreams" == "upstream" + "s";
  }

  lemma PutUpstreamRequest(conv: Strconv, id: string, body: Args)
    requires Bare(id, IsSpace) && id != ""
    ensures BuildRequest(conv, "put_upstream", map["id" := Str(id), "body" := Obj(body)]) ==
              Some(RequestSpec(PUT, UpstreamPath(id), Some(body)))
  {
    hide BuildRequest, AdminPath, Escape, AsString;
    IdArgument(id, map["id" := Str(id), "body" := Obj(body)]);
    PutRequest(conv, "upstream", map["id" := Str(id), "body" := Obj(body)]);
    assert "put_upstream" == "put" + "_" + "upstream" && "upstreams" == "upstream" + "s";
  }

  method GetUpstream(g: Server, conv: Strconv, id: string) returns (value: Result<Args, TuneError>, ghost m: Message)
    requires Bare(id, IsSpace) && id != ""
    modifies g
    ensures m.request == ReadRequest(id) && g.log == old(g.log) + [m]
    ensures Exchange(g.behaviour, old(g.store), m.request, g.store, m.reply)
    ensures value == if !m.reply.Object? then Err(GetFailed)
                     else match AsMap(m.reply.fields, "value") case Some(v) => Ok(v) case None => Err(MissingValue)
  {
    hide BuildRequest, UpstreamPath, Exchanges, Exchange;
    GetUpstreamRequest(conv, id);
    ghost var start := g.store;
    var got, ms := g.InvokeGatewayTool(conv, "get_upstream", map["id" := Str(id)]);
    m := ms[0];
    assert ms == [m];
    OneExchange(g.behaviour, start, m, g.store);
    if got.None? {
      return Err(GetFailed), m;
    }
    match AsMap(got.value, "value") {
      case Some(fields) => value := Ok(fields);
      case None => value := Err(MissingValue);
    }
  }

  method PutUpstream(g: Server, conv: Strconv, id: string, body: Args) returns (ok: bool, ghost m: Message)
    requires Bare(id, IsSpace) && id != ""
    modifies g
    ensures m.request == WriteRequest(id, body) && g.log == old(g.log) + [m]
    ensures Exchange(g.behaviour, old(g.store), m.request, g.store, m.reply)
    ensures ok <==> m.reply.Object?
  {
    hide BuildRequest, UpstreamPath, Exchanges, Exchange;
    PutUpstreamRequest(conv, id, body);
    ghost var start := g.store;
    var put, ms := g.InvokeGatewayTool(conv, "put_upstream", map["id" := Str(id), "body" := Obj(body)]);
    m := ms[0];
    assert ms == [m];
    OneExchange(g.behaviour, start, m, g.store);
    ok := put.Some?;
  }

  /** From the chosen entry to the answer: read the upstream and, unless it is a dry run, write it back. */
  method TuneEntry(g: Server, conv: Strconv, dryRun: bool, target: Entry, scanned: nat)
    returns (r: Result<Report, TuneError>, ghost ms: seq<Message>)
    modifies g
    ensures g.log == old(g.log) + ms && Exchanges(g.behaviour, old(g.store), ms, g.store)
    ensures EntryTranscript(dryRun, target, scanned, ms, r)
  {
    hide UpstreamPath, Exchanges, Exchange, CurrentTimeout, WithTimeout;
    ghost var start := g.store;
    var id := TrimSpace(target.upstreamId);
    ms := [];
    if id == "" {
      NoExchange(g.behaviour, start);
      return Err(EmptyUpstream), ms;
    }
    var value, got := GetUpstream(g, conv, id);
    ms := [got];
    ghost var mid := g.store;
    OneExchange(g.behaviour, start, got, mid);
    if value.Err? {
      return Err(value.error), ms;
    }
    var plan := Plan(dryRun, false, id, target, CurrentTimeout(value.value), scanned);
    if dryRun {
      return Ok(Planned(plan)), ms;
    }
    var body := WithTimeout(value.value, target.recommended);
    var ok, put := PutUpstream(g, conv, id, body);
    OneExchange(g.behaviour, mid, put, g.store);
    FirstExchange(g.behaviour, start, got, mid, [put], g.store);
    ms := [got] + [put];
    if !ok {
      return Err(PutFailed), ms;
    }
    r := Ok(Planned(plan.(updated := true)));
  }

  lemma NoExchange(b: Behaviour, s: Store)
    ensures Exchanges(b, s, [], s)
  {
  }

  method TuneUpstreamTimeout(g: Server, conv: Strconv, args: Args)
    returns (r: Result<Report, TuneError>, opts: TuningOptions, entries: seq<Entry>, ghost ms: seq<Message>)
    modifies g
    ensures g.log == old(g.log) + ms && Exchanges(g.behaviour, old(g.store), ms, g.store)
    ensures opts == InRange(RawOptions(conv, args))
    ensures TuneTranscript(conv, opts, AsBool(args, "dry_run", true), entries, ms, r)
    ensures TuneOutcome(g.behaviour, conv, opts, AsBool(args, "dry_run", true), entries, old(g.store), g.store, r)
  {
    hide LatencySeries.Parse, IsReport, AsBool, Exchanges, ChooseTuningTarget, RawOptions, InRange, TuneOutcome,
      Exchange;
    ghost var start := g.store;
    var dryRun := AsBool(args, "dry_run", true);
    opts := DefaultTuningOptions(conv, args);
    r, entries, ms := TuneWith(g, conv, opts, dryRun);
    TuneTranscriptOutcome(g.behaviour, conv, opts, dryRun, entries, start, ms, g.store, r);
  }

  method TuneWith(g: Server, conv: Strconv, opts: TuningOptions, dryRun: bool)
    returns (r: Result<Report, TuneError>, entries: seq<Entry>, ghost ms: seq<Message>)
    requires ValidOptions(opts)
    modifies g
    ensures g.log == old(g.log) + ms && Exchanges(g.behaviour, old(g.store), ms, g.store)
    ensures TuneTranscript(conv, opts, dryRun, entries, ms, r)
  {
    hide LatencySeries.Parse, IsReport, Exchanges, ChooseTuningTarget, EntryTranscript, Exchange, ValidOptions;
    ghost var start := g.store;
    entries := [];
    var series, first := FetchPhaseSeries(g, opts, conv);
    ghost var mid := g.store;
    ms := [first];
    OneExchange(g.behaviour, start, first, mid);
    if series.None? {
      return Err(FetchFailed), entries, ms;
    }
    entries := BuildLatencyEntries(series.value, opts);
    if entries == [] {
      return Ok(NothingToTune), entries, ms;
    }
    TargetNearSlowest(first.reply.body, opts, conv, entries);
    var target := ChooseTuningTarget(entries, opts).value;
    ghost var rest;
    r, rest := TuneEntry(g, conv, dryRun, target, |entries|);
    FirstExchange(g.behaviour, start, first, mid, rest, g.store);
    ms := [first] + rest;
    assert ms[1..] == rest;
  }
}
