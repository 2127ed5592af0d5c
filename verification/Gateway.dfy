/** The gateway as a store of resources that reacts to requests. */
module Gateway {
  import opened Wrappers
  import opened Options
  import opened Requests

  type Fields = map<string, Value>

  datatype Store = Store(resources: map<string, Fields>, metrics: string)

  datatype Reply = Object(fields: Args) | Text(body: string) | Failure

  /** What the model leaves open: the effect of PATCH and POST on the resources, the answers to requests other than
      reading the metrics or one upstream, whether such a read comes without its "value", and whether an answer can get
      lost after the gateway acted on the request. */
  datatype Behaviour = Behaviour(effect: (Store, RequestSpec) -> map<string, Fields>,
                                 answer: (Store, RequestSpec) -> Reply,
                                 bare: (Store, RequestSpec) -> bool,
                                 lossy: bool)

  const METRICS := "/metrics"
  const UPSTREAMS := "/apisix/admin/upstreams/"

  function Answer(b: Behaviour, s: Store, r: RequestSpec): Reply {
    if r.verb == GET && r.path == METRICS then Text(s.metrics)
    else if r.verb == GET && UPSTREAMS <= r.path then
      if r.path !in s.resources then Failure
      else Object(if b.bare(s, r) then map[] else map["value" := Obj(s.resources[r.path])])
    else b.answer(s, r)
  }

  function Updated(b: Behaviour, s: Store, r: RequestSpec): Store {
    match r.verb
    case GET => s
    case PUT => s.(resources := s.resources[r.path := if r.body.Some? then r.body.value else map[]])
    case DELETE => s.(resources := s.resources - {r.path})
    case PATCH => s.(resources := b.effect(s, r))
    case POST => s.(resources := b.effect(s, r))
  }

  /** A failed request changes nothing, unless only its answer was lost. */
  predicate Exchange(b: Behaviour, s: Store, r: RequestSpec, s': Store, reply: Reply) {
    if reply.Failure? then s' == s || (b.lossy && !Answer(b, s, r).Failure? && s' == Updated(b, s, r))
    else reply == Answer(b, s, r) && s' == Updated(b, s, r)
  }

  /** A request and what came back. */
  datatype Message = Message(request: RequestSpec, reply: Reply)

  /** One request after another, each with its reply. */
  ghost predicate Exchanges(b: Behaviour, s: Store, ms: seq<Message>, s': Store)
    decreases |ms|
  {
    if ms == [] then s' == s
    else exists mid :: Exchange(b, s, ms[0].request, mid, ms[0].reply) && Exchanges(b, mid, ms[1..], s')
  }

  lemma {:induction false} ReadsChangeNothing(b: Behaviour, s: Store, ms: seq<Message>, s': Store)
    requires Exchanges(b, s, ms, s') && forall m :: m in ms ==> m.request.verb == GET
    ensures s' == s
  {
    if ms != [] {
      var mid :| Exchange(b, s, ms[0].request, mid, ms[0].reply) && Exchanges(b, mid, ms[1..], s');
      assert ms[0] in ms;
      ReadsChangeNothing(b, mid, ms[1..], s');
    }
  }

  lemma FirstExchange(b: Behaviour, s: Store, m: Message, mid: Store, ms: seq<Message>, s': Store)
    requires Exchange(b, s, m.request, mid, m.reply) && Exchanges(b, mid, ms, s')
    ensures Exchanges(b, s, [m] + ms, s')
  {
    hide Exchange;
    assert ([m] + ms)[0] == m && ([m] + ms)[1..] == ms;
  }

  lemma OneExchange(b: Behaviour, s: Store, m: Message, s': Store)
    ensures Exchanges(b, s, [m], s') <==> Exchange(b, s, m.request, s', m.reply)
  {
    hide Exchange;
    assert [m][1..] == [];
    assert Exchanges(b, s', [m][1..], s');
  }

  class Server {
    const behaviour: Behaviour
    var store: Store
    ghost var log: seq<Message>

    constructor (behaviour: Behaviour, store: Store)
      ensures this.behaviour == behaviour && this.store == store && log == []
    {
      this.behaviour, this.store, log := behaviour, store, [];
    }

    /** A request may be lost or refused at any time, and so may an answer when the gateway is lossy. */
    method Send(r: RequestSpec) returns (reply: Reply)
      modifies this
      ensures log == old(log) + [Message(r, reply)] && Exchange(behaviour, old(store), r, store, reply)
    {
      var lost: bool, answerLost: bool := *, *;
      if lost {
        log := log + [Message(r, Failure)];
        return Failure;
      }
      reply := Answer(behaviour, store, r);
      if !reply.Failure? {
        store := Updated(behaviour, store, r);
      }
      if behaviour.lossy && answerLost {
        reply := Failure;
      }
      log := log + [Message(r, reply)];
    }

    /** An error return is `None`; a reply that is not an object is an error too. */
    method InvokeGatewayTool(conv: Strconv, tool: string, args: Args) returns (r: Option<Args>, ghost ms: seq<Message>)
      modifies this
      ensures log == old(log) + ms && Exchanges(behaviour, old(store), ms, store)
      ensures match BuildRequest(conv, tool, args)
              case None => ms == [] && r == None
              case Some(spec) =>
                && |ms| == 1 && ms[0].request == spec
                && r == if ms[0].reply.Object? then Some(ms[0].reply.fields) else None
    {
      hide BuildRequest;
      ms := [];
      var spec := BuildRequest(conv, tool, args);
      if spec.None? {
        return None, ms;
      }
      ghost var start := store;
      var reply := Send(spec.value);
      ms := [Message(spec.value, reply)];
      OneExchange(behaviour, start, ms[0], store);
      r := if reply.Object? then Some(reply.fields) else None;
    }
  }
}
