/** What a call of the tuning tool sees, answers and does. */
module TuningSpec {
  import opened Wrappers
  import opened Text
  import opened Options
  import opened Timeouts
  import opened Encoding
  import opened Requests
  import opened Gateway
  import opened Entries
  import LatencySeries

  /** The timeout an upstream had, `Null` standing for a missing part. */
  datatype Before = Before(connect: Value, send: Value, read: Value)

  datatype Plan = Plan(dryRun: bool, updated: bool, upstreamId: string, entry: Entry, before: Before, scanned: nat)

  datatype Report = NothingToTune | Planned(plan: Plan)

  /** Choosing a target cannot fail once the report has an entry (`TargetNearSlowest`), so it has no error here. */
  datatype TuneError = FetchFailed | EmptyUpstream | GetFailed | MissingValue | PutFailed

  function UpstreamPath(id: string): string {
    AdminPath(["upstreams", Escape(Segment, id)])
  }

  function TimeoutValue(rec: Recommendation): Value {
    Obj(map["connect" := Int(rec.connect), "send" := Int(rec.send), "read" := Int(rec.read)])
  }

  function WithTimeout(fields: Fields, rec: Recommendation): Fields {
    fields["timeout" := TimeoutValue(rec)]
  }

  /** The store after applying a recommendation to one existing upstream. */
  function Applied(s: Store, id: string, rec: Recommendation): Store
    requires UpstreamPath(id) in s.resources
  {
    s.(resources := s.resources[UpstreamPath(id) := WithTimeout(s.resources[UpstreamPath(id)], rec)])
  }

  function CurrentTimeout(value: Args): Before {
    match AsMap(value, "timeout")
    case Some(t) => Before(ValueAt(t, "connect"), ValueAt(t, "send"), ValueAt(t, "read"))
    case None => Before(Null, Null, Null)
  }

  function ValueAt(fields: Args, key: string): Value {
    if key in fields then fields[key] else Null
  }

  ghost predicate Reported(conv: Strconv, opts: TuningOptions, metrics: string, entries: seq<Entry>) {
    ValidOptions(opts) && IsReport(LatencySeries.Parse(metrics, opts, conv), opts, entries)
  }

  function ReadRequest(id: string): RequestSpec {
    RequestSpec(GET, UpstreamPath(id), None)
  }

  function WriteRequest(id: string, body: Fields): RequestSpec {
    RequestSpec(PUT, UpstreamPath(id), Some(body))
  }

  /** The gateway accepts the request, and yet the caller can see it fail: the answer is not an object, or gets lost. */
  predicate Deniable(b: Behaviour, s: Store, r: RequestSpec) {
    Answer(b, s, r).Text? || (b.lossy && Answer(b, s, r).Object?)
  }

  /** The upstream is there and the gateway shows it. */
  predicate Readable(b: Behaviour, s: Store, id: string) {
    UpstreamPath(id) in s.resources && !b.bare(s, ReadRequest(id))
  }

  /** What a call may do once it has picked an entry. */
  ghost predicate EntryOutcome(b: Behaviour, dryRun: bool, target: Entry, scanned: nat, s: Store, s': Store,
                               r: Result<Report, TuneError>)
  {
    var id, rec := TrimSpace(target.upstreamId), target.recommended;
    match r
    case Err(EmptyUpstream) => id == "" && s' == s
    case Err(GetFailed) => id != "" && s' == s
    case Err(MissingValue) =>
      id != "" && UpstreamPath(id) in s.resources && b.bare(s, ReadRequest(id)) && s' == s
    case Err(PutFailed) =>
      && id != "" && !dryRun && Readable(b, s, id)
      && (s' == s || (&& Deniable(b, s, WriteRequest(id, WithTimeout(s.resources[UpstreamPath(id)], rec)))
                      && s' == Applied(s, id, rec)))
    case Ok(Planned(plan)) =>
      && id != "" && Readable(b, s, id)
      && plan == Plan(dryRun, !dryRun, id, target, CurrentTimeout(s.resources[UpstreamPath(id)]), scanned)
      && if dryRun then s' == s
         else && Answer(b, s, WriteRequest(id, WithTimeout(s.resources[UpstreamPath(id)], rec))).Object?
              && s' == Applied(s, id, rec)
    case _ => false
  }

  /** Everything one call of the tuning tool may do to the store, and what it then returns. */
  ghost predicate TuneOutcome(b: Behaviour, conv: Strconv, opts: TuningOptions, dryRun: bool, entries: seq<Entry>,
                              s: Store, s': Store, r: Result<Report, TuneError>)
  {
    if r == Err(FetchFailed) then s' == s
    else
      && Reported(conv, opts, s.metrics, entries)
      && if entries == [] then r == Ok(NothingToTune) && s' == s
         else EntryOutcome(b, dryRun, entries[0], |entries|, s, s', r)
  }

  // ---------- Paths ----------

  lemma UpstreamPathPrefix(id: string)
    ensures UPSTREAMS <= UpstreamPath(id) && UpstreamPath(id)[|UPSTREAMS|..] == Escape(Segment, id)
    ensures UpstreamPath(id) == "/apisix/admin/upstreams/" + Escape(Segment, id)
  {
    hide Escape, Join;
    var e := Escape(Segment, id);
    JoinCons("upstreams", [e], '/');
    JoinCons(e, [], '/');
    assert ["upstreams"] + [e] == ["upstreams", e] && [e] + [] == [e];
    assert UpstreamPath(id) == ADMIN + ("upstreams" + ['/'] + e);
    assert UPSTREAMS == ADMIN + "upstreams" + ['/'];
  }

  /** Different upstreams live at different paths. */
  lemma UpstreamPathInjective(a: string, b: string)
    requires UpstreamPath(a) == UpstreamPath(b)
    ensures a == b
  {
    hide *;
    UpstreamPathPrefix(a);
    UpstreamPathPrefix(b);
    EscapeRoundTrip(Segment, a);
    EscapeRoundTrip(Segment, b);
  }

  lemma UpstreamsNotMetrics(path: string)
    requires UPSTREAMS <= path
    ensures path != METRICS
  {
    assert path[1] == UPSTREAMS[1];
  }

  // ---------- What the replies decide ----------

  /** From the chosen entry on: the messages exchanged, and the answer they lead to. */
  ghost predicate EntryTranscript(dryRun: bool, target: Entry, scanned: nat, ms: seq<Message>,
                                  r: Result<Report, TuneError>)
  {
    var id := TrimSpace(target.upstreamId);
    if id == "" then ms == [] && r == Err(EmptyUpstream)
    else
      && 1 <= |ms| && ms[0].request == ReadRequest(id)
      && if !ms[0].reply.Object? then |ms| == 1 && r == Err(GetFailed)
         else match AsMap(ms[0].reply.fields, "value")
           case None => |ms| == 1 && r == Err(MissingValue)
           case Some(value) =>
             var plan := Plan(dryRun, !dryRun, id, target, CurrentTimeout(value), scanned);
             if dryRun then |ms| == 1 && r == Ok(Planned(plan))
             else
               && |ms| == 2 && ms[1].request == WriteRequest(id, WithTimeout(value, target.recommended))
               && r == if ms[1].reply.Object? then Ok(Planned(plan)) else Err(PutFailed)
  }

  /** A whole call: the metrics are read, and their report decides what follows. */
  ghost predicate TuneTranscript(conv: Strconv, opts: TuningOptions, dryRun: bool, entries: seq<Entry>,
                                 ms: seq<Message>, r: Result<Report, TuneError>)
  {
    && 1 <= |ms| && ms[0].request == RequestSpec(GET, "/metrics", None)
    && if !ms[0].reply.Text? then |ms| == 1 && r == Err(FetchFailed)
       else
         && Reported(conv, opts, ms[0].reply.body, entries)
         && if entries == [] then |ms| == 1 && r == Ok(NothingToTune)
            else EntryTranscript(dryRun, entries[0], |entries|, ms[1..], r)
  }

  ghost predicate EntryRun(b: Behaviour, dryRun: bool, target: Entry, scanned: nat, s: Store, s': Store,
                           r: Result<Report, TuneError>)
  {
    exists ms :: EntryTranscript(dryRun, target, scanned, ms, r) && Exchanges(b, s, ms, s')
  }

  ghost predicate TuneRun(b: Behaviour, conv: Strconv, opts: TuningOptions, dryRun: bool, entries: seq<Entry>,
                          s: Store, s': Store, r: Result<Report, TuneError>)
  {
    exists ms :: TuneTranscript(conv, opts, dryRun, entries, ms, r) && Exchanges(b, s, ms, s')
  }

  lemma ReadExchange(b: Behaviour, s: Store, id: string, mid: Store, got: Reply)
    ensures Exchange(b, s, ReadRequest(id), mid, got) <==>
              mid == s && (got.Failure? || got == Answer(b, s, ReadRequest(id)))
    ensures Answer(b, s, ReadRequest(id)) ==
              if UpstreamPath(id) !in s.resources then Failure
              else if Readable(b, s, id) then Object(map["value" := Obj(s.resources[UpstreamPath(id)])])
              else Object(map[])
  {
    hide UpstreamPath;
    UpstreamPathPrefix(id);
    UpstreamsNotMetrics(UpstreamPath(id));
  }

  lemma WriteExchange(b: Behaviour, s: Store, id: string, rec: Recommendation, s': Store, put: Reply)
    requires UpstreamPath(id) in s.resources
    ensures var w := WriteRequest(id, WithTimeout(s.resources[UpstreamPath(id)], rec));
            Exchange(b, s, w, s', put) <==>
              if put.Object? then Answer(b, s, w) == put && s' == Applied(s, id, rec)
              else if put.Text? then Answer(b, s, w) == put && s' == Applied(s, id, rec)
              else s' == s || (b.lossy && !Answer(b, s, w).Failure? && s' == Applied(s, id, rec))
  {
    hide UpstreamPath, WithTimeout, Answer;
  }

  lemma TranscriptOutcome(b: Behaviour, dryRun: bool, target: Entry, scanned: nat, s: Store, ms: seq<Message>,
                          s': Store, r: Result<Report, TuneError>)
    requires EntryTranscript(dryRun, target, scanned, ms, r) && Exchanges(b, s, ms, s')
    ensures EntryOutcome(b, dryRun, target, scanned, s, s', r)
  {
    hide UpstreamPath, CurrentTimeout, WithTimeout, WriteRequest, ReadRequest, TrimSpace, Exchange, Applied, Answer;
    var id := TrimSpace(target.upstreamId);
    if id != "" {
      var mid :| Exchange(b, s, ms[0].request, mid, ms[0].reply) && Exchanges(b, mid, ms[1..], s');
      ReadExchange(b, s, id, mid, ms[0].reply);
      if |ms| == 2 {
        assert ms[1..] == [ms[1]];
        OneExchange(b, mid, ms[1], s');
        hide Exchanges;
        WriteExchange(b, s, id, target.recommended, s', ms[1].reply);
      }
    }
  }

  lemma OutcomeTranscript(b: Behaviour, dryRun: bool, target: Entry, scanned: nat, s: Store, s': Store,
                          r: Result<Report, TuneError>)
    returns (ms: seq<Message>)
    requires EntryOutcome(b, dryRun, target, scanned, s, s', r)
    ensures EntryTranscript(dryRun, target, scanned, ms, r) && Exchanges(b, s, ms, s')
  {
    hide UpstreamPath, CurrentTimeout, WithTimeout, WriteRequest, ReadRequest, TrimSpace, Exchange, Applied, Answer;
    var id := TrimSpace(target.upstreamId);
    if id == "" {
      return [];
    }
    var got := if r == Err(GetFailed) then Failure else Answer(b, s, ReadRequest(id));
    ReadExchange(b, s, id, s, got);
    var first := Message(ReadRequest(id), got);
    if !dryRun && Readable(b, s, id) && (r.Ok? || r == Err(PutFailed)) {
      var w := WriteRequest(id, WithTimeout(s.resources[UpstreamPath(id)], target.recommended));
      var put := if r.Ok? || (s' != s && Answer(b, s, w).Text?) then Answer(b, s, w) else Failure;
      WriteExchange(b, s, id, target.recommended, s', put);
      OneExchange(b, s, Message(w, put), s');
      FirstExchange(b, s, first, s, [Message(w, put)], s');
      ms := [first] + [Message(w, put)];
      hide Exchanges;
    } else {
      OneExchange(b, s, first, s);
      ms := [first];
      hide Exchanges;
    }
  }

  /** The outcomes listed for a call are exactly those some exchanges with the gateway lead to. */
  lemma OutcomesExactly(b: Behaviour, dryRun: bool, target: Entry, scanned: nat, s: Store, s': Store,
                        r: Result<Report, TuneError>)
    ensures EntryRun(b, dryRun, target, scanned, s, s', r) <==> EntryOutcome(b, dryRun, target, scanned, s, s', r)
  {
    hide EntryTranscript, EntryOutcome, Exchanges;
    if EntryRun(b, dryRun, target, scanned, s, s', r) {
      var ms :| EntryTranscript(dryRun, target, scanned, ms, r) && Exchanges(b, s, ms, s');
      TranscriptOutcome(b, dryRun, target, scanned, s, ms, s', r);
    }
    if EntryOutcome(b, dryRun, target, scanned, s, s', r) {
      var ms := OutcomeTranscript(b, dryRun, target, scanned, s, s', r);
    }
  }

  lemma MetricsExchange(b: Behaviour, s: Store, mid: Store, reply: Reply)
    ensures Exchange(b, s, RequestSpec(GET, "/metrics", None), mid, reply) <==>
              mid == s && (reply.Failure? || reply == Text(s.metrics))
  {
  }

  /** The same for a whole call. */
  lemma TuneOutcomesExactly(b: Behaviour, conv: Strconv, opts: TuningOptions, dryRun: bool, entries: seq<Entry>,
                            s: Store, s': Store, r: Result<Report, TuneError>)
    ensures TuneRun(b, conv, opts, dryRun, entries, s, s', r) <==>
            TuneOutcome(b, conv, opts, dryRun, entries, s, s', r)
  {
    hide Exchanges, Reported, TuneTranscript, TuneOutcome;
    if TuneRun(b, conv, opts, dryRun, entries, s, s', r) {
      var ms :| TuneTranscript(conv, opts, dryRun, entries, ms, r) && Exchanges(b, s, ms, s');
      TuneTranscriptOutcome(b, conv, opts, dryRun, entries, s, ms, s', r);
    }
    if TuneOutcome(b, conv, opts, dryRun, entries, s, s', r) {
      var ms := TuneOutcomeTranscript(b, conv, opts, dryRun, entries, s, s', r);
    }
  }

  lemma TuneTranscriptOutcome(b: Behaviour, conv: Strconv, opts: TuningOptions, dryRun: bool, entries: seq<Entry>,
                              s: Store, ms: seq<Message>, s': Store, r: Result<Report, TuneError>)
    requires TuneTranscript(conv, opts, dryRun, entries, ms, r) && Exchanges(b, s, ms, s')
    ensures TuneOutcome(b, conv, opts, dryRun, entries, s, s', r)
  {
    hide Reported, EntryTranscript, EntryOutcome, Exchange;
    var mid :| Exchange(b, s, ms[0].request, mid, ms[0].reply) && Exchanges(b, mid, ms[1..], s');
    MetricsExchange(b, s, mid, ms[0].reply);
    if ms[0].reply.Text? && entries != [] {
      hide Exchanges;
      TranscriptOutcome(b, dryRun, entries[0], |entries|, s, ms[1..], s', r);
      NoFetchFailure(b, dryRun, entries[0], |entries|, s, s');
    }
  }

  lemma TuneOutcomeTranscript(b: Behaviour, conv: Strconv, opts: TuningOptions, dryRun: bool, entries: seq<Entry>,
                              s: Store, s': Store, r: Result<Report, TuneError>)
    returns (ms: seq<Message>)
    requires TuneOutcome(b, conv, opts, dryRun, entries, s, s', r)
    ensures TuneTranscript(conv, opts, dryRun, entries, ms, r) && Exchanges(b, s, ms, s')
  {
    hide Reported, EntryTranscript, EntryOutcome, Exchange;
    var reply := if r == Err(FetchFailed) then Failure else Text(s.metrics);
    var first := Message(RequestSpec(GET, "/metrics", None), reply);
    MetricsExchange(b, s, s, reply);
    if r == Err(FetchFailed) || entries == [] {
      OneExchange(b, s, first, s);
      return [first];
    }
    var rest := OutcomeTranscript(b, dryRun, entries[0], |entries|, s, s', r);
    hide Exchanges;
    FirstExchange(b, s, first, s, rest, s');
    ms := [first] + rest;
    assert ms[1..] == rest;
  }

  lemma NoFetchFailure(b: Behaviour, dryRun: bool, target: Entry, scanned: nat, s: Store, s': Store)
    ensures !EntryOutcome(b, dryRun, target, scanned, s, s', Err(FetchFailed))
  {
    hide TrimSpace;
  }
}
