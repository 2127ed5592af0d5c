/** One authorised, audited tool call, and whole runs of them. */
module Invoke {
  import opened Wrappers
  import opened Options
  import opened Requests
  import opened Gateway
  import opened Authorize
  import opened Audit
  import opened Ports
  import JwksCache
  import opened Tokens
  import JwksHeap
  import Entries
  import TuningSpec
  import Tuning

  type Verdict = Result<Claims, TokenError>

  /** A tool call as it arrives. */
  datatype ToolCall = ToolCall(bearer: string, tool: string, args: Args, traceId: string)

  /** What surrounds one call: when the key cache is looked up, what the key server says (or how the fetch fails)
      when it is asked, when its keys are stored, when the token is judged, and when the event is logged. */
  datatype Env = Env(at: int, fetched: Option<seq<JwksHeap.Jwk>>, fetchError: string, asked: int, later: int,
                     judged: int, logged: int)

  /** What stays the same from call to call. */
  datatype Setting = Setting(policy: Policy, conv: Strconv, config: Config, codecs: Codecs, refresh: int,
                             behaviour: Behaviour)

  /** What the gateway client returns; an error return is no answer. */
  datatype Answered =
    | Answered(fields: Args)
    | Analysed(opts: TuningOptions, entries: seq<Entries.Entry>)
    | Tuned(report: TuningSpec.Report)

  datatype Outcome = Served(answer: Answered) | Unauthorized(reason: string) | Forbidden(reason: string) | Failed

  /** The token is good and its scopes allow the tool. */
  predicate Passes(policy: Policy, verdict: Verdict, tool: string) {
    verdict.Ok? && Check(policy, verdict.value.scopes, tool).allowed
  }

  /** The messages one tool exchanges with the gateway, and the answer that the replies decide. */
  ghost predicate ClientTranscript(conv: Strconv, tool: string, args: Args, ms: seq<Message>,
                                   answer: Option<Answered>)
  {
    if tool == "analyze_latency" then
      && |ms| == 1 && ms[0].request == RequestSpec(GET, "/metrics", None)
      && if !ms[0].reply.Text? then answer == None
         else && answer.Some? && answer.value.Analysed? && answer.value.opts == InRange(RawOptions(conv, args))
              && TuningSpec.Reported(conv, answer.value.opts, ms[0].reply.body, answer.value.entries)
    else if tool == "tune_upstream_timeout" then TuneTranscript(conv, args, ms, answer)
    else match BuildRequest(conv, tool, args)
      case None => ms == [] && answer == None
      case Some(spec) =>
        && |ms| == 1 && ms[0].request == spec
        && answer == if ms[0].reply.Object? then Some(Answered(ms[0].reply.fields)) else None
  }

  ghost predicate TuneTranscript(conv: Strconv, args: Args, ms: seq<Message>, answer: Option<Answered>) {
    exists entries, r ::
      && TuningSpec.TuneTranscript(conv, InRange(RawOptions(conv, args)), AsBool(args, "dry_run", true), entries, ms, r)
      && answer == if r.Ok? then Some(Tuned(r.value)) else None
  }

  method InvokeClient(g: Server, conv: Strconv, tool: string, args: Args)
    returns (answer: Option<Answered>, ghost ms: seq<Message>)
    modifies g
    ensures ClientTranscript(conv, tool, args, ms, answer) && g.log == old(g.log) + ms
    ensures Exchanges(g.behaviour, old(g.store), ms, g.store)
  {
    hide BuildRequest, AsBool, RawOptions, InRange, Exchange, Exchanges;
    hide TuningSpec.TuneOutcome, TuningSpec.TuneTranscript, TuningSpec.Reported;
    ghost var start := g.store;
    if tool == "analyze_latency" {
      var entries, opts, m := Tuning.AnalyzeLatency(g, conv, args);
      OneExchange(g.behaviour, start, m, g.store);
      return if entries.Some? then Some(Analysed(opts, entries.value)) else None, [m];
    }
    if tool == "tune_upstream_timeout" {
      var report, opts, entries, sent := Tuning.TuneUpstreamTimeout(g, conv, args);
      return if report.Ok? then Some(Tuned(report.value)) else None, sent;
    }
    var r;
    r, ms := g.InvokeGatewayTool(conv, tool, args);
    answer := if r.Some? then Some(Answered(r.value)) else None;
  }

  const GATEWAY_ERROR := "gateway error"

  /** The event written for one call. */
  predicate EventFor(policy: Policy, call: ToolCall, env: Env, verdict: Verdict, failure: Option<string>, e: Event) {
    match verdict
    case Err(error) =>
      e == Event(env.logged, "", "", call.tool, "", "", "deny", call.traceId, ErrorText(error, env.fetchError))
    case Ok(claims) =>
      var decision := Check(policy, claims.scopes, call.tool);
      var result := if !decision.allowed then "deny" else if failure.Some? then "error" else "allow";
      var message := if !decision.allowed then decision.reason else if failure.Some? then failure.value else "";
      e == Event(env.logged, claims.subject, claims.client, call.tool, "", "", result, call.traceId, message)
  }

  /** One call: what the verifier made of its token, what was exchanged with the gateway, what the client answered, and
      what was logged. */
  datatype Record = Record(call: ToolCall, env: Env, verdict: Verdict, messages: seq<Message>, answer: Option<Answered>,
                           event: Event)

  /** What a run of the server changes: the gateway's store, the requests it has seen, the audit log, and the keys. */
  datatype World = World(store: Store, log: seq<Message>, events: seq<Event>, cache: JwksCache.Cache)

  /** The token is verified with the keys that the cache or the key server yields, which may refresh the cache. */
  ghost predicate Verified(su: Setting, cache: JwksCache.Cache, rec: Record, cache': JwksCache.Cache) {
    var keys := JwksHeap.FetchedKeys(rec.env.fetched, su.codecs.decode);
    && MayAnswer(su.config, su.codecs, rec.call.bearer, Loaded(cache, rec.env.at, su.refresh, keys), rec.env.judged,
                 rec.verdict)
    && cache' == CacheAfterVerify(su.codecs, rec.call.bearer, cache, rec.env.at, su.refresh, keys, rec.env.later)
  }

  ghost predicate Handled(su: Setting, s: Store, rec: Record, s': Store) {
    && (exists failure: Option<string> ::
          && (failure.Some? <==> rec.answer.None?)
          && EventFor(su.policy, rec.call, rec.env, rec.verdict, failure, rec.event))
    && if Passes(su.policy, rec.verdict, rec.call.tool) then
         && ClientTranscript(su.conv, rec.call.tool, rec.call.args, rec.messages, rec.answer)
         && Exchanges(su.behaviour, s, rec.messages, s')
       else rec.messages == [] && rec.answer == None && s' == s
  }

  ghost predicate Step(su: Setting, w: World, rec: Record, w': World) {
    && Verified(su, w.cache, rec, w'.cache) && Handled(su, w.store, rec, w'.store)
    && w'.log == w.log + rec.messages && w'.events == w.events + [rec.event]
  }

  class Service {
    const policy: Policy
    const conv: Strconv
    const config: Config
    const codecs: Codecs
    const verifier: JwksHeap.Verifier
    const gateway: Server
    const audit: MemoryStore

    constructor (policy: Policy, conv: Strconv, config: Config, codecs: Codecs, verifier: JwksHeap.Verifier,
                 gateway: Server, audit: MemoryStore)
      ensures this.policy == policy && this.conv == conv && this.config == config && this.codecs == codecs
      ensures this.verifier == verifier && this.gateway == gateway && this.audit == audit
    {
      this.policy, this.conv, this.config, this.codecs := policy, conv, config, codecs;
      this.verifier, this.gateway, this.audit := verifier, gateway, audit;
    }

    /** The gateway and the log are no part of the key cache. */
    ghost predicate Valid()
      reads verifier, verifier.Footprint()
    {
      verifier.Valid() && gateway !in verifier.Footprint() && audit !in verifier.Footprint()
    }

    function InSetting(): Setting {
      Setting(policy, conv, config, codecs, verifier.refresh, gateway.behaviour)
    }

    ghost function Now(): World
      reads gateway, audit, verifier, verifier.Footprint()
    {
      World(gateway.store, gateway.log, audit.events, verifier.Cached())
    }

    /** What follows verification: the scope check, the client, and the one event. */
    method Respond(call: ToolCall, env: Env, verdict: Verdict) returns (r: Outcome, ghost rec: Record)
      modifies gateway, audit
      ensures rec.call == call && rec.env == env && rec.verdict == verdict
      ensures Handled(InSetting(), old(gateway.store), rec, gateway.store)
      ensures gateway.log == old(gateway.log) + rec.messages && audit.events == old(audit.events) + [rec.event]
      ensures match r
              case Unauthorized(reason) => verdict.Err? && reason == ErrorText(verdict.error, env.fetchError)
              case Forbidden(reason) =>
                verdict.Ok? && Check(policy, verdict.value.scopes, call.tool) == Decision(false, reason)
              case Served(answer) =>
                Passes(policy, verdict, call.tool) && rec.answer == Some(answer) && rec.event.result == "allow"
              case Failed => Passes(policy, verdict, call.tool) && rec.answer == None && rec.event.result == "error"
    {
      hide Check, ClientTranscript, ErrorText;
      if verdict.Err? {
        var reason := ErrorText(verdict.error, env.fetchError);
        var e := Event(env.logged, "", "", call.tool, "", "", "deny", call.traceId, reason);
        audit.Append(e);
        assert EventFor(policy, call, env, verdict, Some(GATEWAY_ERROR), e);
        return Unauthorized(reason), Record(call, env, verdict, [], None, e);
      }
      var claims := verdict.value;
      var decision := Check(policy, claims.scopes, call.tool);
      if !decision.allowed {
        var e := Event(env.logged, claims.subject, claims.client, call.tool, "", "", "deny", call.traceId,
                       decision.reason);
        audit.Append(e);
        assert EventFor(policy, call, env, verdict, Some(GATEWAY_ERROR), e);
        return Forbidden(decision.reason), Record(call, env, verdict, [], None, e);
      }
      var answer, sent := InvokeClient(gateway, conv, call.tool, call.args);
      if answer.None? {
        var e := Event(env.logged, claims.subject, claims.client, call.tool, "", "", "error", call.traceId,
                       GATEWAY_ERROR);
        audit.Append(e);
        assert EventFor(policy, call, env, verdict, Some(GATEWAY_ERROR), e);
        return Failed, Record(call, env, verdict, sent, None, e);
      }
      var e := Event(env.logged, claims.subject, claims.client, call.tool, "", "", "allow", call.traceId, "");
      audit.Append(e);
      assert EventFor(policy, call, env, verdict, None, e);
      r, rec := Served(answer.value), Record(call, env, verdict, sent, answer, e);
    }

    method InvokeTool(call: ToolCall, env: Env) returns (r: Outcome, ghost rec: Record)
      requires Valid()
      modifies gateway, audit, verifier
      ensures Valid() && rec.call == call && rec.env == env && Step(InSetting(), old(Now()), rec, Now())
      ensures match r
              case Unauthorized(reason) => rec.verdict.Err? && reason == ErrorText(rec.verdict.error, env.fetchError)
              case Forbidden(reason) =>
                rec.verdict.Ok? && Check(policy, rec.verdict.value.scopes, call.tool) == Decision(false, reason)
              case Served(answer) =>
                Passes(policy, rec.verdict, call.tool) && rec.answer == Some(answer) && rec.event.result == "allow"
              case Failed =>
                Passes(policy, rec.verdict, call.tool) && rec.answer == None && rec.event.result == "error"
    {
      hide Check, Passes, Handled, MayAnswer, Loaded, CacheAfterVerify, ErrorText, JwksHeap.FetchedKeys;
      var verdict := VerifyBearer(verifier, config, codecs, call.bearer, env.at, env.fetched, env.later, env.judged);
      r, rec := Respond(call, env, verdict);
    }
  }

  // ---------- Whole runs ----------

  ghost predicate Run(su: Setting, w: World, recs: seq<Record>, w': World)
    decreases |recs|
  {
    if recs == [] then w' == w
    else exists mid :: Step(su, w, recs[0], mid) && Run(su, mid, recs[1..], w')
  }

  function EventsOf(recs: seq<Record>): (es: seq<Event>)
    ensures |es| == |recs|
  {
    if recs == [] then [] else [recs[0].event] + EventsOf(recs[1..])
  }

  function SentBy(recs: seq<Record>): seq<Message> {
    if recs == [] then [] else recs[0].messages + SentBy(recs[1..])
  }

  /** The replies amount to success: the metrics arrived; the tuning call found nothing to tune, was shown the upstream
      in a dry run, or saw its write confirmed; any other tool was answered with an object. */
  predicate Succeeded(tool: string, dryRun: bool, ms: seq<Message>, nothing: bool) {
    if tool == "analyze_latency" then |ms| == 1 && ms[0].reply.Text?
    else if tool == "tune_upstream_timeout" then TuneSucceeded(dryRun, ms, nothing)
    else |ms| == 1 && ms[0].reply.Object?
  }

  predicate TuneSucceeded(dryRun: bool, ms: seq<Message>, nothing: bool) {
    || (|ms| == 1 && ms[0].reply.Text? && nothing)
    || (|ms| == 2 && dryRun && ms[1].reply.Object? && "value" in ms[1].reply.fields && ms[1].reply.fields["value"].Obj?)
    || (|ms| == 3 && ms[2].reply.Object?)
  }

  /** The words for what is wrong with a token; a failed fetch has its own. */
  predicate SaysWhy(e: TokenError, fetchError: string, message: string) {
    match e
    case MissingBearer => message == "missing bearer token"
    case MalformedJwt => message == "malformed jwt"
    case InvalidAlg => message == "invalid jwt alg"
    case InvalidSig => message == "invalid jwt signature"
    case IssuerMismatch => message == "issuer mismatch"
    case AudienceMissing => message == "audience mismatch"
    case TokenExpired => message == "token expired"
    case KeyNotFound => message == "jwks key not found"
    case FetchFailed => message == fetchError
  }

  lemma ErrorSaysWhy(e: TokenError, fetchError: string)
    ensures SaysWhy(e, fetchError, ErrorText(e, fetchError))
  {
  }

  /** The event tells its call and who made it. It says "deny" exactly when the call was stopped before the gateway, and
      "allow" exactly when it was not and the gateway's replies amount to success. */
  ghost predicate Corresponds(su: Setting, rec: Record) {
    && rec.event.tool == rec.call.tool && rec.event.traceId == rec.call.traceId && rec.event.at == rec.env.logged
    && rec.event.actor == (if rec.verdict.Ok? then rec.verdict.value.subject else "")
    && rec.event.clientId == (if rec.verdict.Ok? then rec.verdict.value.client else "")
    && rec.event.result in {"deny", "error", "allow"}
    && (rec.event.result == "deny" <==> !Passes(su.policy, rec.verdict, rec.call.tool))
    && (rec.event.result == "deny" ==> rec.messages == [])
    && (rec.verdict.Err? ==> SaysWhy(rec.verdict.error, rec.env.fetchError, rec.event.message))
    && (rec.verdict.Ok? && rec.event.result == "deny" ==>
          rec.event.message == Check(su.policy, rec.verdict.value.scopes, rec.call.tool).reason)
    && (rec.event.result != "deny" ==>
          && ClientTranscript(su.conv, rec.call.tool, rec.call.args, rec.messages, rec.answer)
          && (rec.event.result == "allow" <==>
                Succeeded(rec.call.tool, AsBool(rec.call.args, "dry_run", true), rec.messages,
                          rec.answer == Some(Tuned(TuningSpec.NothingToTune)))))
    && (rec.event.result == "allow" ==> rec.answer.Some? && rec.event.message == "")
    && (rec.answer.Some? && rec.answer.value.Answered? ==>
          |rec.messages| == 1 && rec.messages[0].reply == Object(rec.answer.value.fields))
  }

  lemma TranscriptSucceeds(conv: Strconv, tool: string, args: Args, ms: seq<Message>, answer: Option<Answered>)
    requires ClientTranscript(conv, tool, args, ms, answer)
    ensures answer.Some? <==>
      Succeeded(tool, AsBool(args, "dry_run", true), ms, answer == Some(Tuned(TuningSpec.NothingToTune)))
    ensures answer.Some? && answer.value.Answered? ==> |ms| == 1 && ms[0].reply == Object(answer.value.fields)
  {
    hide BuildRequest, AsBool, RawOptions, InRange, TuningSpec.Reported, TuningSpec.TuneTranscript, TuneSucceeded;
    if tool == "tune_upstream_timeout" {
      var entries, r :|
        && TuningSpec.TuneTranscript(conv, InRange(RawOptions(conv, args)), AsBool(args, "dry_run", true), entries,
                                     ms, r)
        && answer == if r.Ok? then Some(Tuned(r.value)) else None;
      TuneTranscriptSucceeds(conv, InRange(RawOptions(conv, args)), AsBool(args, "dry_run", true), entries, ms, r);
    }
  }

  lemma TuneTranscriptSucceeds(conv: Strconv, opts: TuningOptions, dryRun: bool, entries: seq<Entries.Entry>,
                               ms: seq<Message>, r: Result<TuningSpec.Report, TuningSpec.TuneError>)
    requires TuningSpec.TuneTranscript(conv, opts, dryRun, entries, ms, r)
    ensures r.Ok? <==> TuneSucceeded(dryRun, ms, r == Ok(TuningSpec.NothingToTune))
  {
    hide TuningSpec.Reported, TuningSpec.CurrentTimeout, TuningSpec.WithTimeout, TuningSpec.WriteRequest;
    hide TuningSpec.ReadRequest, TuningSpec.EntryTranscript;
    if entries != [] && ms[0].reply.Text? {
      EntryTranscriptSucceeds(dryRun, entries[0], |entries|, ms[1..], r);
      assert forall i :: 0 < i < |ms| ==> ms[i] == ms[1..][i - 1];
    }
  }

  lemma EntryTranscriptSucceeds(dryRun: bool, target: Entries.Entry, scanned: nat, ms: seq<Message>,
                                r: Result<TuningSpec.Report, TuningSpec.TuneError>)
    requires TuningSpec.EntryTranscript(dryRun, target, scanned, ms, r)
    ensures |ms| <= 2 && r != Ok(TuningSpec.NothingToTune)
    ensures r.Ok? <==>
      || (|ms| == 1 && dryRun && ms[0].reply.Object? && "value" in ms[0].reply.fields &&
          ms[0].reply.fields["value"].Obj?)
      || (|ms| == 2 && ms[1].reply.Object?)
  {
    hide TuningSpec.CurrentTimeout, TuningSpec.WithTimeout, TuningSpec.WriteRequest, TuningSpec.ReadRequest;
  }

  lemma HandledCorresponds(su: Setting, s: Store, rec: Record, s': Store)
    requires Handled(su, s, rec, s')
    ensures Corresponds(su, rec)
  {
    hide Check, ClientTranscript, Exchanges, ErrorText, Succeeded, AsBool, SaysWhy;
    if rec.verdict.Err? {
      ErrorSaysWhy(rec.verdict.error, rec.env.fetchError);
    }
    if Passes(su.policy, rec.verdict, rec.call.tool) {
      TranscriptSucceeds(su.conv, rec.call.tool, rec.call.args, rec.messages, rec.answer);
    }
  }

  /** The log gains one event per call, in order, each telling what became of it. */
  lemma {:induction false} AuditCorrespondence(su: Setting, w: World, recs: seq<Record>, w': World)
    requires Run(su, w, recs, w')
    ensures w'.events == w.events + EventsOf(recs) && w'.log == w.log + SentBy(recs)
    ensures forall rec :: rec in recs ==> Corresponds(su, rec)
    decreases |recs|
  {
    hide Handled, Corresponds, Verified;
    if recs != [] {
      var mid :| Step(su, w, recs[0], mid) && Run(su, mid, recs[1..], w');
      HandledCorresponds(su, w.store, recs[0], mid.store);
      AuditCorrespondence(su, mid, recs[1..], w');
      assert forall rec :: rec in recs ==> rec == recs[0] || rec in recs[1..];
    }
  }

  // ---------- Who gets through ----------

  /** From the moment `now` on the calls come one after the other, the key server is asked after each miss, and what it
      said is stored within the delay. */
  ghost predicate Timely(su: Setting, server: JwksCache.KeyServer, delay: int, now: int, recs: seq<Record>)
    decreases |recs|
  {
    recs != [] ==>
      var env := recs[0].env;
      && now <= env.at <= env.asked <= env.later <= env.asked + delay
      && JwksHeap.FetchedKeys(env.fetched, su.codecs.decode) == server(env.asked)
      && Timely(su, server, delay, env.later, recs[1..])
  }

  /** A state of the key cache protocol with this cache, at or before `now` and with no fetch under way, is
      reachable. */
  ghost predicate Reaches(server: JwksCache.KeyServer, refresh: int, delay: int, cache: JwksCache.Cache, now: int) {
    exists s, steps, st ::
      && JwksCache.Start(s) && JwksCache.Run(server, refresh, delay, s, steps, st)
      && st.cache == cache && st.now <= now && st.flights == map[]
  }

  lemma ReachesNext(server: JwksCache.KeyServer, refresh: int, delay: int, cache: JwksCache.Cache, now: int, at: int,
                    asked: int, later: int)
    requires Reaches(server, refresh, delay, cache, now) && now <= at <= asked <= later <= asked + delay
    ensures Reaches(server, refresh, delay, JwksCache.CacheAfter(cache, at, refresh, server(asked), later), later)
  {
    hide JwksCache.Run, JwksCache.CacheAfter, JwksCache.Start;
    var s, steps, st :| && JwksCache.Start(s) && JwksCache.Run(server, refresh, delay, s, steps, st)
                        && st.cache == cache && st.now <= now && st.flights == map[];
    var at0 := st.(now := at);
    assert JwksCache.Next(server, refresh, delay, st, JwksCache.Tick(at), at0);
    JwksCache.RunOfStates(server, refresh, delay, [st, at0], [JwksCache.Tick(at)]);
    var more, st' := JwksCache.LoneLoadIsARun(server, refresh, delay, at0, asked, later);
    JwksCache.RunAppend(server, refresh, delay, s, steps, st, [JwksCache.Tick(at)], at0);
    JwksCache.RunAppend(server, refresh, delay, s, steps + [JwksCache.Tick(at)], at0, more, st');
  }

  lemma LoadedInWindow(server: JwksCache.KeyServer, refresh: int, delay: int, cache: JwksCache.Cache, now: int,
                       at: int, asked: int, later: int, keys: JwksCache.Keys)
    requires Reaches(server, refresh, delay, cache, now) && now <= at <= asked <= later <= asked + delay
    requires refresh > 0 && JwksCache.LoadedKeys(cache, at, refresh, server(asked)) == Some(keys)
    ensures JwksCache.ServedBetween(server, keys, at - refresh - delay + 1, later)
  {
    hide JwksCache.Run;
    var s, steps, st :| && JwksCache.Start(s) && JwksCache.Run(server, refresh, delay, s, steps, st)
                        && st.cache == cache && st.now <= now && st.flights == map[];
    JwksCache.RunKeepsInvariant(server, refresh, delay, s, steps, st);
    var u := if JwksCache.Lookup(cache, at, refresh).Some? then st.asOf else asked;
    assert at - refresh - delay + 1 <= u <= later && server(u) == Some(keys);
  }

  /** The call's token is good for keys the server handed out lately, and its own scopes allow the tool. */
  ghost predicate Admitted(su: Setting, server: JwksCache.KeyServer, delay: int, rec: Record) {
    && rec.verdict.Ok? && Check(su.policy, rec.verdict.value.scopes, rec.call.tool).allowed
    && exists keys :: && JwksCache.ServedBetween(server, keys, rec.env.at - su.refresh - delay + 1, rec.env.later)
                      && Good(su.config, su.codecs, rec.call.bearer, keys, rec.env.judged, rec.verdict.value)
  }

  lemma PassingIsAdmitted(su: Setting, server: JwksCache.KeyServer, delay: int, cache: JwksCache.Cache, now: int,
                          rec: Record, cache': JwksCache.Cache)
    requires Verified(su, cache, rec, cache') && Passes(su.policy, rec.verdict, rec.call.tool) && su.refresh > 0
    requires Reaches(server, su.refresh, delay, cache, now) && Timely(su, server, delay, now, [rec])
    ensures Admitted(su, server, delay, rec)
  {
    hide Reaches, Check, Good, JwksCache.ServedBetween, JwksCache.LoadedKeys, CacheAfterVerify, JwksHeap.FetchedKeys;
    hide MayAnswer;
    var env := rec.env;
    assert [rec][0] == rec;
    var loaded := Loaded(cache, env.at, su.refresh, server(env.asked));
    AcceptedHasKeys(su.config, su.codecs, rec.call.bearer, loaded, env.judged, rec.verdict.value);
    LoadedInWindow(server, su.refresh, delay, cache, now, env.at, env.asked, env.later, loaded.value);
    AcceptedExactly(su.config, su.codecs, rec.call.bearer, loaded.value, env.judged, rec.verdict.value);
  }

  /** Every call that the log does not deny came with a token that is well formed, suits the server, is signed by keys
      the key server handed out within the window, and whose scopes allow the tool. */
  lemma {:induction false} OnlyAdmittedPass(su: Setting, server: JwksCache.KeyServer, delay: int, now: int,
                                            w: World, recs: seq<Record>, w': World)
    requires Run(su, w, recs, w') && su.refresh > 0
    requires Timely(su, server, delay, now, recs) && Reaches(server, su.refresh, delay, w.cache, now)
    ensures forall rec :: rec in recs && rec.event.result != "deny" ==> Admitted(su, server, delay, rec)
    decreases |recs|
  {
    hide Reaches, Verified, Handled, Admitted, Passes;
    if recs != [] {
      var mid :| Step(su, w, recs[0], mid) && Run(su, mid, recs[1..], w');
      var env := recs[0].env;
      HandledCorresponds(su, w.store, recs[0], mid.store);
      assert Timely(su, server, delay, now, [recs[0]]) by {
        assert [recs[0]][1..] == [];
      }
      if Passes(su.policy, recs[0].verdict, recs[0].call.tool) {
        PassingIsAdmitted(su, server, delay, w.cache, now, recs[0], mid.cache);
      }
      VerifiedReaches(su, server, delay, w.cache, now, recs[0], mid.cache);
      OnlyAdmittedPass(su, server, delay, env.later, mid, recs[1..], w');
      assert forall rec :: rec in recs ==> rec == recs[0] || rec in recs[1..];
    }
  }

  lemma VerifiedReaches(su: Setting, server: JwksCache.KeyServer, delay: int, cache: JwksCache.Cache, now: int,
                        rec: Record, cache': JwksCache.Cache)
    requires Verified(su, cache, rec, cache') && Reaches(server, su.refresh, delay, cache, now)
    requires Timely(su, server, delay, now, [rec])
    ensures Reaches(server, su.refresh, delay, cache', rec.env.later)
  {
    hide MayAnswer, Loaded, Parse, JwksCache.CacheAfter, JwksCache.Run, JwksHeap.FetchedKeys;
    assert [rec][0] == rec;
    ReachesNext(server, su.refresh, delay, cache, now, rec.env.at, rec.env.asked, rec.env.later);
  }

  /** An empty cache is where every run of the protocol starts. */
  lemma EmptyReaches(server: JwksCache.KeyServer, refresh: int, delay: int, now: int)
    ensures Reaches(server, refresh, delay, JwksCache.Empty, now)
  {
    var s := JwksCache.State(now, JwksCache.Empty, now, map[]);
    assert JwksCache.Run(server, refresh, delay, s, [], s);
  }

  // ---------- Readers ----------

  /** The principal, if any, holds no scope that grants writing. */
  predicate Reader(verdict: Verdict) {
    verdict.Ok? ==> NoWriteScope(verdict.value.scopes)
  }

  lemma ReaderSendsReads(conv: Strconv, verdict: Verdict, tool: string, args: Args, ms: seq<Message>,
                         answer: Option<Answered>)
    requires Reader(verdict) && Passes(Shipped(), verdict, tool) && ClientTranscript(conv, tool, args, ms, answer)
    ensures forall m :: m in ms ==> m.request.verb == GET
  {
    hide Check, BuildRequest, Shipped, ReadTool, TuneTranscript, TuningSpec.Reported, RawOptions, InRange;
    ReadersOnlyRead(verdict.value.scopes, tool);
    assert tool != "tune_upstream_timeout" by {
      assert "tune_upstream_timeout" !in READ_TOOLS;
    }
    if tool != "analyze_latency" && BuildRequest(conv, tool, args).Some? {
      ShippedReadTools(tool);
      ReadToolsGet(conv, tool, args);
    }
  }

  lemma ShippedReadTools(tool: string)
    requires tool in READ_TOOLS && tool != "analyze_latency"
    ensures ReadTool(tool)
  {
    assert "list_routes" == "list_" + "route" + "s" && "list_services" == "list_" + "service" + "s";
    assert "list_upstreams" == "list_" + "upstream" + "s" && "list_plugin_configs" == "list_" + "plugin_config" + "s";
    assert "list_global_rules" == "list_" + "global_rule" + "s" && "get_route" == "get" + "_" + "route";
  }

  /** Under the shipped configuration, however many calls such principals make, only GET requests go out and the
      gateway ends as it began. */
  lemma {:induction false} ReadOnlySafety(su: Setting, w: World, recs: seq<Record>, w': World)
    requires su.policy == Shipped()
    requires Run(su, w, recs, w') && forall rec :: rec in recs ==> Reader(rec.verdict)
    ensures w'.store == w.store && forall rec, m :: rec in recs && m in rec.messages ==> m.request.verb == GET
    decreases |recs|
  {
    hide Check, ClientTranscript, Exchanges, Shipped, EventFor, Passes, Reader, Verified;
    if recs != [] {
      var mid :| Step(su, w, recs[0], mid) && Run(su, mid, recs[1..], w');
      assert recs[0] in recs && forall rec :: rec in recs[1..] ==> rec in recs;
      var rec := recs[0];
      if Passes(Shipped(), rec.verdict, rec.call.tool) {
        ReaderSendsReads(su.conv, rec.verdict, rec.call.tool, rec.call.args, rec.messages, rec.answer);
        ReadsChangeNothing(su.behaviour, w.store, rec.messages, mid.store);
      }
      ReadOnlySafety(su, mid, recs[1..], w');
      assert forall rec :: rec in recs ==> rec == recs[0] || rec in recs[1..];
    }
  }
}
