/** The HTTP request behind each gateway tool. */
module Requests {
  import opened Wrappers
  import opened Text
  import opened Options
  import opened Encoding
  import opened KeyOrder

  datatype Method = GET | PUT | PATCH | DELETE | POST

  datatype RequestSpec = RequestSpec(verb: Method, path: string, body: Option<Args>)

  const ADMIN := "/apisix/admin/"

  const NOUNS := {"route", "service", "upstream", "plugin_config", "global_rule"}

  /** The five tools of one verb, such as get_route ... get_global_rule. */
  function Named(verb: string): set<string> {
    set noun | noun in NOUNS :: verb + "_" + noun
  }

  function ListTools(): set<string> {
    set noun | noun in NOUNS :: "list_" + noun + "s"
  }

  /** The resource kind is read off the tool name, first match first. */
  function KindOf(tool: string): Option<string> {
    if Contains(tool, "_route") then Some("routes")
    else if Contains(tool, "_service") then Some("services")
    else if Contains(tool, "_upstream") then Some("upstreams")
    else if Contains(tool, "_plugin_config") then Some("plugin_configs")
    else if Contains(tool, "_global_rule") then Some("global_rules")
    else None
  }

  function ParseKindAndID(tool: string, args: Args): Option<(string, string)> {
    var id := AsString(args, "id");
    if id == "" then None
    else match KindOf(tool)
      case None => None
      case Some(kind) => Some((kind, id))
  }

  /** A path under the admin API, from its segments. */
  function AdminPath(tail: seq<string>): string {
    ADMIN + Join(tail, '/')
  }

  function QuerySuffix(params: Params): string {
    var raw := EncodeParams(params);
    if raw != "" then "?" + raw else ""
  }

  /** Encoding a query sorts its keys, so the keyword comes first. */
  function ListParams(conv: Strconv, args: Args): Params {
    var page, size, keyword := AsInt(conv, args, "page", 0), AsInt(conv, args, "page_size", 0),
      AsString(args, "keyword");
    (if keyword != "" then [("keyword", keyword)] else []) +
    (if page > 0 then [("page", Itoa(page))] else []) +
    (if size > 0 then [("page_size", Itoa(size))] else [])
  }

  function TrimmedStrings(items: seq<Value>): seq<string> {
    if items == [] then []
    else
      var rest := TrimmedStrings(items[..|items| - 1]);
      var item := items[|items| - 1];
      if item.Str? && TrimSpace(item.s) != "" then rest + [TrimSpace(item.s)] else rest
  }

  function StringSlice(args: Args, key: string): seq<string> {
    if key in args && args[key].List? then TrimmedStrings(args[key].items) else []
  }

  function ExportParams(args: Args): Params {
    var format, kinds := AsString(args, "format"), StringSlice(args, "kinds");
    (if format != "" then [("format", format)] else []) +
    seq(|kinds|, i requires 0 <= i < |kinds| => ("kind", kinds[i]))
  }

  /** A bundle may come wrapped in a `request` object or as the arguments themselves. */
  function BundleBody(args: Args): Args {
    match AsMap(args, "request")
    case Some(body) => body
    case None => args
  }

  function ByID(verb: Method, tool: string, args: Args, body: Option<Args>): Option<RequestSpec> {
    match ParseKindAndID(tool, args)
    case None => None
    case Some((kind, id)) => Some(RequestSpec(verb, AdminPath([kind, Escape(Segment, id)]), body))
  }

  /** `None` stands for the error return. */
  function BuildRequest(conv: Strconv, tool: string, args: Args): Option<RequestSpec> {
    if tool in ListTools() then
      Some(RequestSpec(GET, AdminPath([tool[|"list_"|..]]) + QuerySuffix(ListParams(conv, args)), None))
    else if tool in Named("get") then ByID(GET, tool, args, None)
    else if tool in Named("put") then
      if AsMap(args, "body").None? then None else ByID(PUT, tool, args, AsMap(args, "body"))
    else if tool in Named("patch") then
      if AsMap(args, "body").None? then None else ByID(PATCH, tool, args, AsMap(args, "body"))
    else if tool in Named("delete") then ByID(DELETE, tool, args, None)
    else if tool == "preview_import" then
      Some(RequestSpec(POST, AdminPath(["control", "imports", "preview"]), Some(BundleBody(args))))
    else if tool == "apply_import" then
      Some(RequestSpec(POST, AdminPath(["control", "imports", "apply"]), Some(BundleBody(args))))
    else if tool == "export_bundle" then
      Some(RequestSpec(GET, AdminPath(["control", "exports"]) + QuerySuffix(ExportParams(args)), None))
    else if tool == "history_list" then
      Some(RequestSpec(GET, AdminPath(["control", "history"]) + "?limit=" + Itoa(AsInt(conv, args, "limit", 10)), None))
    else if tool == "history_rollback" then
      var id := AsString(args, "id");
      if id == "" then None
      else Some(RequestSpec(POST, AdminPath(["control", "history", Escape(Segment, id), "rollback"]), Some(map[])))
    else if tool == "get_schema" then Some(RequestSpec(GET, AdminPath(["control", "schema"]), None))
    else if tool == "list_plugins" then Some(RequestSpec(GET, AdminPath(["control", "plugins"]), None))
    else if tool == "get_stats" then Some(RequestSpec(GET, AdminPath(["control", "stats"]), None))
    else None
  }

  // ---------- The loops behind the queries ----------

  type Values = map<string, seq<string>>

  /** The pairs of a query: the keys in the given order and each key's values in insertion order. */
  function PairsOf(q: Values, keys: seq<string>): Params {
    if keys == [] then []
    else
      var vs := if keys[0] in q then q[keys[0]] else [];
      seq(|vs|, i requires 0 <= i < |vs| => (keys[0], vs[i])) + PairsOf(q, keys[1..])
  }

  /** Keys without values make no difference, so the sorted keys can be replaced by any ascending list of more keys. */
  lemma {:induction false} SamePairs(q: Values, s: seq<string>, keys: seq<string>)
    requires Strict(s) && Strict(keys)
    requires forall k :: k in s <==> k in keys && k in q
    ensures PairsOf(q, s) == PairsOf(q, keys)
    decreases |keys|
  {
    hide Lex;
    if keys == [] {
      SomeKey(s);
    } else if keys[0] !in q {
      assert forall k :: k in keys ==> k == keys[0] || k in keys[1..];
      SamePairs(q, s, keys[1..]);
    } else {
      FirstKey(s, keys, keys[0]);
      FirstOnce(s);
      FirstOnce(keys);
      SamePairs(q, s[1..], keys[1..]);
    }
  }

  lemma SomeKey(s: seq<string>)
    ensures s == [] || exists k :: k in s
  {
    assert s != [] ==> s[0] in s;
  }

  lemma FirstOnce(s: seq<string>)
    requires Strict(s) && s != []
    ensures s[0] !in s[1..] && forall k :: k in s <==> k == s[0] || k in s[1..]
  {
    hide Lex;
    LexTotal(s[0], s[0]);
  }

  lemma FirstKey(s: seq<string>, keys: seq<string>, k: string)
    requires Strict(s) && Strict(keys) && keys != [] && keys[0] == k && k in s && forall x :: x in s ==> x in keys
    ensures s[0] == k
  {
    hide Lex;
    var i :| 0 <= i < |s| && s[i] == k;
    assert s[0] in keys;
    var j :| 0 <= j < |keys| && keys[j] == s[0];
    LexTotal(s[0], k);
  }

  /** Query encoding sorts the keys. */
  method EncodeValues(q: Values) returns (raw: string)
    ensures forall keys :: Strict(keys) && (forall k :: k in q ==> k in keys) ==> raw == EncodeParams(PairsOf(q, keys))
  {
    hide EncodeParams, PairsOf, Lex, Strict;
    var s := SortKeys(q.Keys);
    raw := EncodeParams(PairsOf(q, s));
    forall keys | Strict(keys) && forall k :: k in q ==> k in keys
      ensures raw == EncodeParams(PairsOf(q, keys))
    {
      SamePairs(q, s, keys);
    }
  }

  lemma ListKeysAscend()
    ensures Strict(["keyword", "page", "page_size"])
  {
    assert "page_size" == "page" + "_size";
    LexLonger("page", "_size");
    var keys := ["keyword", "page", "page_size"];
    assert Lex(keys[0], keys[1]) && Lex(keys[0], keys[2]) && Lex(keys[1], keys[2]);
  }

  lemma ExportKeysAscend()
    ensures Strict(["format", "kind"])
  {
  }

  method BuildListQuery(conv: Strconv, args: Args) returns (s: string)
    ensures s == QuerySuffix(ListParams(conv, args))
  {
    hide AsInt, AsString, Itoa, EncodeParams, PairsOf, Strict;
    var q: Values := map[];
    var page := AsInt(conv, args, "page", 0);
    if page > 0 {
      q := q["page" := [Itoa(page)]];
    }
    var size := AsInt(conv, args, "page_size", 0);
    if size > 0 {
      q := q["page_size" := [Itoa(size)]];
    }
    var keyword := AsString(args, "keyword");
    if keyword != "" {
      q := q["keyword" := [keyword]];
    }
    ThreePairs(q, "keyword", "page", "page_size");
    ListKeysAscend();
    var raw := EncodeValues(q);
    assert raw == EncodeParams(PairsOf(q, ["keyword", "page", "page_size"]));
    if raw != "" {
      return "?" + raw;
    }
    return "";
  }

  function SinglePair(q: Values, key: string): Params {
    if key in q && |q[key]| == 1 then [(key, q[key][0])] else []
  }

  lemma PairsOne(q: Values, key: string, rest: seq<string>)
    requires key in q ==> |q[key]| == 1
    ensures PairsOf(q, [key] + rest) == SinglePair(q, key) + PairsOf(q, rest)
  {
    assert ([key] + rest)[1..] == rest;
  }

  lemma ThreePairs(q: Values, a: string, b: string, c: string)
    requires forall k :: k in q ==> |q[k]| == 1
    ensures PairsOf(q, [a, b, c]) == SinglePair(q, a) + SinglePair(q, b) + SinglePair(q, c)
  {
    assert PairsOf(q, []) == [];
    hide SinglePair, PairsOf;
    assert PairsOf(q, [c]) == SinglePair(q, c) by {
      PairsOne(q, c, []);
      assert [c] + [] == [c];
    }
    assert PairsOf(q, [b, c]) == SinglePair(q, b) + SinglePair(q, c) by {
      PairsOne(q, b, [c]);
      assert [b] + [c] == [b, c];
    }
    PairsOne(q, a, [b, c]);
    assert [a] + [b, c] == [a, b, c];
  }

  method BuildExportQuery(args: Args) returns (s: string)
    ensures s == QuerySuffix(ExportParams(args))
  {
    hide AsString, EncodeParams, PairsOf, StringSlice, Strict;
    var q: Values := map[];
    var format := AsString(args, "format");
    if format != "" {
      q := q["format" := [format]];
    }
    var kinds := AsStringSlice(args, "kinds");
    if |kinds| > 0 {
      for n := 0 to |kinds|
        invariant q.Keys <= {"format", "kind"} && ("format" in q <==> format != "")
        invariant "format" in q ==> q["format"] == [format]
        invariant (if "kind" in q then q["kind"] else []) == kinds[..n]
      {
        q := q["kind" := (if "kind" in q then q["kind"] else []) + [kinds[n]]];
      }
      assert kinds[..|kinds|] == kinds;
    }
    FormatAndKinds(q, format, kinds);
    ExportKeysAscend();
    var raw := EncodeValues(q);
    assert raw == EncodeParams(PairsOf(q, ["format", "kind"]));
    assert PairsOf(q, ["format", "kind"]) == ExportParams(args);
    if raw != "" {
      return "?" + raw;
    }
    return "";
  }

  lemma FormatAndKinds(q: Values, format: string, kinds: seq<string>)
    requires "format" in q <==> format != ""
    requires "format" in q ==> q["format"] == [format]
    requires (if "kind" in q then q["kind"] else []) == kinds
    ensures PairsOf(q, ["format", "kind"]) ==
              (if format != "" then [("format", format)] else []) +
              seq(|kinds|, i requires 0 <= i < |kinds| => ("kind", kinds[i]))
  {
    var kindPairs := seq(|kinds|, i requires 0 <= i < |kinds| => ("kind", kinds[i]));
    assert ["format", "kind"][1..] == ["kind"] && ["kind"][1..] == [];
    assert PairsOf(q, ["kind"]) == kindPairs + PairsOf(q, []);
    assert PairsOf(q, ["kind"]) == kindPairs;
    PairsOne(q, "format", ["kind"]);
    assert ["format"] + ["kind"] == ["format", "kind"];
  }

  method AsStringSlice(args: Args, key: string) returns (out: seq<string>)
    ensures out == StringSlice(args, key)
  {
    if key !in args || !args[key].List? {
      return [];
    }
    var raw := args[key].items;
    out := [];
    for n := 0 to |raw|
      invariant out == TrimmedStrings(raw[..n])
    {
      assert raw[..n + 1][..n] == raw[..n];
      if !raw[n].Str? || TrimSpace(raw[n].s) == "" {
        continue;
      }
      out := out + [TrimSpace(raw[n].s)];
    }
    assert raw[..|raw|] == raw;
  }

  // ---------- Reading a request back ----------

  /** A tool call after normalisation: the trimmed id, the query parameters it asks for, and its body. */
  datatype Call = Call(tool: string, id: string, params: Params, body: Option<Args>)

  function Normal(conv: Strconv, tool: string, args: Args): Call {
    var id := AsString(args, "id");
    if tool in ListTools() then Call(tool, "", ListParams(conv, args), None)
    else if tool in Named("get") then Call(tool, id, [], None)
    else if tool in Named("put") then Call(tool, id, [], AsMap(args, "body"))
    else if tool in Named("patch") then Call(tool, id, [], AsMap(args, "body"))
    else if tool in Named("delete") then Call(tool, id, [], None)
    else if tool in {"preview_import", "apply_import"} then Call(tool, "", [], Some(BundleBody(args)))
    else if tool == "export_bundle" then Call(tool, "", ExportParams(args), None)
    else if tool == "history_list" then Call(tool, "", [("limit", Itoa(AsInt(conv, args, "limit", 10)))], None)
    else if tool == "history_rollback" then Call(tool, id, [], Some(map[]))
    else Call(tool, "", [], None)
  }

  function Singular(kind: string): string {
    if kind == "" then "" else kind[..|kind| - 1]
  }

  function VerbPrefix(verb: Method): string {
    match verb
    case GET => "get_"
    case PUT => "put_"
    case PATCH => "patch_"
    case DELETE => "delete_"
    case POST => ""
  }

  function DecodeTail(verb: Method, tail: seq<string>, params: Params, body: Option<Args>): Call {
    if |tail| == 1 then Call("list_" + tail[0], "", params, None)
    else if |tail| == 2 && tail[0] != "control" then
      var prefix := VerbPrefix(verb);
      Call(prefix + Singular(tail[0]), Unescape(Segment, tail[1]), [], body)
    else if |tail| == 2 then
      var tool := if tail[1] == "exports" then "export_bundle" else if tail[1] == "history" then "history_list"
                  else if tail[1] == "schema" then "get_schema" else if tail[1] == "plugins" then "list_plugins"
                    else "get_stats";
      Call(tool, "", params, None)
    else if |tail| == 3 then Call(if tail[2] == "preview" then "preview_import" else "apply_import", "", [], body)
    else if |tail| == 4 then Call("history_rollback", Unescape(Segment, tail[2]), [], body)
    else Call("", "", [], None)
  }

  /** What a server can tell from a request: cut the query off, split the path, undo the encoding. */
  function DecodeRequest(spec: RequestSpec): Call {
    DecodePath(spec.verb, if ADMIN <= spec.path then spec.path[|ADMIN|..] else "", spec.body)
  }

  function DecodePath(verb: Method, rest: string, body: Option<Args>): Call {
    var cut := Find(rest, '?');
    var query := if cut < |rest| then rest[cut + 1..] else "";
    DecodeTail(verb, Split(rest[..cut], '/'), DecodeParams(query), body)
  }

  predicate PlainSegments(tail: seq<string>) {
    tail != [] && forall i :: 0 <= i < |tail| ==> '/' !in tail[i] && '?' !in tail[i]
  }

  lemma PathDecodes(verb: Method, tail: seq<string>, params: Params, body: Option<Args>)
    requires PlainSegments(tail)
    ensures DecodeRequest(RequestSpec(verb, AdminPath(tail) + QuerySuffix(params), body)) ==
      DecodeTail(verb, tail, params, body)
  {
    hide DecodeRequest, DecodePath, DecodeTail, Join, QuerySuffix;
    UnderAdmin(verb, Join(tail, '/'), QuerySuffix(params), body);
    RestDecodes(verb, tail, params, body);
  }

  lemma UnderAdmin(verb: Method, path: string, suffix: string, body: Option<Args>)
    ensures DecodeRequest(RequestSpec(verb, ADMIN + path + suffix, body)) == DecodePath(verb, path + suffix, body)
  {
    hide DecodePath;
    var full := ADMIN + path + suffix;
    assert full == ADMIN + (path + suffix);
    assert full[|ADMIN|..] == path + suffix;
  }

  lemma RestDecodes(verb: Method, tail: seq<string>, params: Params, body: Option<Args>)
    requires PlainSegments(tail)
    ensures DecodePath(verb, Join(tail, '/') + QuerySuffix(params), body) == DecodeTail(verb, tail, params, body)
  {
    hide DecodeTail, DecodeParams, EncodeParams, Join, Split, Find;
    var path, raw, full := Join(tail, '/'), EncodeParams(params), Join(tail, '/') + QuerySuffix(params);
    SplitJoin(tail, '/');
    JoinFree(tail, '/', '?');
    ParamsRoundTrip(params);
    if raw == "" {
      assert full == path;
      FindAbsent(path, '?');
    } else {
      assert full == path + "?" + raw;
      FindAt(path, '?', raw);
    }
    assert Find(full, '?') == |path| && full[..|path|] == path;
    assert (if |path| < |full| then full[|path| + 1..] else "") == raw;
  }

  lemma FindAbsent(s: string, c: char)
    requires c !in s
    ensures Find(s, c) == |s|
  {
  }

  /** The kind read off a tool name is the plural of its noun. */
  lemma KindOfNamed(verb: string, noun: string)
    requires noun in NOUNS && '_' !in verb
    ensures KindOf(verb + "_" + noun) == Some(noun + "s")
  {
    hide Contains;
    assert "_route" == "_" + "route" && "_service" == "_" + "service" && "_upstream" == "_" + "upstream";
    assert "_plugin_config" == "_" + "plugin_config" && "_global_rule" == "_" + "global_rule";
    assert "routes" == "route" + "s" && "services" == "service" + "s" && "upstreams" == "upstream" + "s";
    assert "plugin_configs" == "plugin_config" + "s" && "global_rules" == "global_rule" + "s";
    ContainsNoun(verb, noun, "route");
    ContainsNoun(verb, noun, "service");
    ContainsNoun(verb, noun, "upstream");
    ContainsNoun(verb, noun, "plugin_config");
    ContainsNoun(verb, noun, "global_rule");
  }

  lemma ContainsNoun(verb: string, noun: string, other: string)
    requires noun in NOUNS && other in NOUNS && '_' !in verb
    ensures Contains(verb + "_" + noun, "_" + other) <==> noun == other
  {
    var s, sub := verb + "_" + noun, "_" + other;
    if noun == other {
      assert s[|verb|..] == sub;
      assert s[|verb|..][..|sub|] == sub;
    } else {
      forall i | 0 <= i <= |s| - |sub| ensures s[i..][..|sub|] != sub {
        NotAt(verb, noun, other, i);
      }
    }
  }

  lemma NotAt(verb: string, noun: string, other: string, i: nat)
    requires noun in NOUNS && other in NOUNS && '_' !in verb && noun != other
    requires i <= |verb + "_" + noun| - |"_" + other|
    ensures (verb + "_" + noun)[i..][..|"_" + other|] != "_" + other
  {
    var s, sub := verb + "_" + noun, "_" + other;
    var piece := s[i..][..|sub|];
    assert piece[0] == s[i] && piece[1] == s[i + 1] && piece[2] == s[i + 2];
    assert sub[0] == '_' && sub[1] == other[0] && sub[2] == other[1];
    if i < |verb| {
      assert s[i] in verb;
    } else if i == |verb| {
      assert s[i + 1] == noun[0] && s[i + 2] == noun[1];
      assert noun[0] != other[0];
    } else {
      var j := i - |verb| - 1;
      assert s[i] == noun[j] && s[i + 1] == noun[j + 1] && s[i + 2] == noun[j + 2];
    }
  }

  lemma NounFacts(noun: string)
    requires noun in NOUNS
    ensures noun + "s" != "control" && '/' !in noun + "s" && '?' !in noun + "s" && Singular(noun + "s") == noun
  {
  }

  lemma EscapedSegment(id: string)
    ensures '/' !in Escape(Segment, id) && '?' !in Escape(Segment, id) && Unescape(Segment, Escape(Segment, id)) == id
  {
    EscapeHides(Segment, id, '/');
    EscapeHides(Segment, id, '?');
    EscapeRoundTrip(Segment, id);
  }

  /** A tool addressed by id reads back as its verb, its noun and the trimmed id. */
  lemma ByIDDecodes(verb: Method, prefix: string, noun: string, args: Args, body: Option<Args>)
    requires noun in NOUNS && '_' !in prefix
    requires match verb case GET => prefix == "get" case PUT => prefix == "put" case PATCH => prefix == "patch"
                        case DELETE => prefix == "delete" case POST => false
    requires ByID(verb, prefix + "_" + noun, args, body).Some?
    ensures DecodeRequest(ByID(verb, prefix + "_" + noun, args, body).value) ==
              Call(prefix + "_" + noun, AsString(args, "id"), [], body)
  {
    hide AsString, KindOf, Escape, Unescape, DecodeRequest, AdminPath, Singular;
    var id := AsString(args, "id");
    KindOfNamed(prefix, noun);
    NounFacts(noun);
    EscapedSegment(id);
    var tail := [noun + "s", Escape(Segment, id)];
    PathDecodes(verb, tail, [], body);
    NoQuery(AdminPath(tail));
    assert prefix + "_" + noun == VerbPrefix(verb) + noun;
  }

  lemma NoQuery(path: string)
    ensures path + QuerySuffix([]) == path
  {
    JoinEmpty('&');
    assert EncodePairs([]) == [];
  }

  lemma ListDecodes(noun: string, params: Params)
    requires noun in NOUNS
    ensures ("list_" + noun + "s")[|"list_"|..] == noun + "s"
    ensures DecodeRequest(RequestSpec(GET, AdminPath([noun + "s"]) + QuerySuffix(params), None)) ==
              Call("list_" + noun + "s", "", params, None)
  {
    hide DecodeRequest, AdminPath, QuerySuffix;
    NounFacts(noun);
    PathDecodes(GET, [noun + "s"], params, None);
    assert "list_" + noun + "s" == "list_" + (noun + "s");
  }

  lemma ControlDecodes(verb: Method, tail: seq<string>, params: Params, body: Option<Args>, tool: string)
    requires match tool
             case "export_bundle" => verb == GET && tail == ["control", "exports"] && body == None
             case "history_list" => verb == GET && tail == ["control", "history"] && body == None
             case "get_schema" => verb == GET && tail == ["control", "schema"] && body == None
             case "list_plugins" => verb == GET && tail == ["control", "plugins"] && body == None
             case "get_stats" => verb == GET && tail == ["control", "stats"] && body == None
             case "preview_import" => verb == POST && tail == ["control", "imports", "preview"] && params == []
             case "apply_import" => verb == POST && tail == ["control", "imports", "apply"] && params == []
             case _ => false
    ensures DecodeRequest(RequestSpec(verb, AdminPath(tail) + QuerySuffix(params), body)) ==
      Call(tool, "", params, body)
  {
    hide DecodeRequest, AdminPath, QuerySuffix, PlainSegments, DecodeTail;
    ControlPlain(tail);
    ControlTail(verb, tail, params, body, tool);
    PathDecodes(verb, tail, params, body);
  }

  lemma ControlTail(verb: Method, tail: seq<string>, params: Params, body: Option<Args>, tool: string)
    requires match tool
             case "export_bundle" => verb == GET && tail == ["control", "exports"] && body == None
             case "history_list" => verb == GET && tail == ["control", "history"] && body == None
             case "get_schema" => verb == GET && tail == ["control", "schema"] && body == None
             case "list_plugins" => verb == GET && tail == ["control", "plugins"] && body == None
             case "get_stats" => verb == GET && tail == ["control", "stats"] && body == None
             case "preview_import" => verb == POST && tail == ["control", "imports", "preview"] && params == []
             case "apply_import" => verb == POST && tail == ["control", "imports", "apply"] && params == []
             case _ => false
    ensures DecodeTail(verb, tail, params, body) == Call(tool, "", params, body)
  {
  }

  /** The path segments of the control tools. */
  lemma ControlPlain(tail: seq<string>)
    requires tail in {["control", "exports"], ["control", "history"], ["control", "schema"], ["control", "plugins"],
                      ["control", "stats"], ["control", "imports", "preview"], ["control", "imports", "apply"]}
    ensures PlainSegments(tail)
  {
  }

  lemma RollbackDecodes(id: string)
    ensures DecodeRequest(RequestSpec(POST, AdminPath(["control", "history", Escape(Segment, id), "rollback"]),
                                      Some(map[]))) ==
              Call("history_rollback", id, [], Some(map[]))
  {
    hide DecodeRequest, AdminPath, Escape, Unescape;
    EscapedSegment(id);
    var tail := ["control", "history", Escape(Segment, id), "rollback"];
    PathDecodes(POST, tail, [], Some(map[]));
    NoQuery(AdminPath(tail));
  }

  lemma {:induction false} EscapePlain(s: string)
    requires forall c :: c in s ==> Unreserved(c)
    ensures Escape(Query, s) == s
  {
    if s != "" {
      assert s[0] in s;
      EscapePlain(s[1..]);
    }
  }

  lemma {:induction false} DigitsPlain(n: nat)
    ensures forall c :: c in Digits(n) ==> Unreserved(c)
  {
    if n >= 10 {
      DigitsPlain(n / 10);
    }
  }

  lemma SingleParam(key: string, value: string)
    ensures EncodeParams([(key, value)]) == Escape(Query, key) + "=" + Escape(Query, value)
  {
    hide Escape;
    assert EncodePairs([(key, value)]) == [EncodePair((key, value))];
  }

  lemma LimitKey()
    ensures Escape(Query, "limit") == "limit"
  {
    EscapePlain("limit");
  }

  lemma ItoaPlain(n: int)
    ensures Escape(Query, Itoa(n)) == Itoa(n)
  {
    DigitsPlain(if n < 0 then -n else n);
    hide Escape, Digits;
    EscapePlain(Itoa(n));
  }

  lemma LimitQuery(limit: int)
    ensures QuerySuffix([("limit", Itoa(limit))]) == "?limit=" + Itoa(limit)
  {
    hide Escape, Itoa, EncodeParams;
    LimitKey();
    ItoaPlain(limit);
    SingleParam("limit", Itoa(limit));
    assert "?" + ("limit" + "=" + Itoa(limit)) == "?limit=" + Itoa(limit);
  }

  /** Every request can be read back: it determines the tool and its normalised arguments. */
  lemma RequestRoundTrip(conv: Strconv, tool: string, args: Args)
    requires BuildRequest(conv, tool, args).Some?
    ensures DecodeRequest(BuildRequest(conv, tool, args).value) == Normal(conv, tool, args)
  {
    hide DecodeRequest, AdminPath, QuerySuffix, ByID, AsString, AsInt, ListParams, ExportParams, Itoa, Escape,
      BundleBody;
    if tool in ListTools() {
      var noun :| noun in NOUNS && tool == "list_" + noun + "s";
      ListDecodes(noun, ListParams(conv, args));
    } else if tool in Named("get") {
      var noun :| noun in NOUNS && tool == "get" + "_" + noun;
      ByIDDecodes(GET, "get", noun, args, None);
    } else if tool in Named("put") {
      var noun :| noun in NOUNS && tool == "put" + "_" + noun;
      ByIDDecodes(PUT, "put", noun, args, AsMap(args, "body"));
    } else if tool in Named("patch") {
      var noun :| noun in NOUNS && tool == "patch" + "_" + noun;
      ByIDDecodes(PATCH, "patch", noun, args, AsMap(args, "body"));
    } else if tool in Named("delete") {
      var noun :| noun in NOUNS && tool == "delete" + "_" + noun;
      ByIDDecodes(DELETE, "delete", noun, args, None);
    } else {
      ControlRoundTrip(conv, tool, args);
    }
  }

  lemma ControlRoundTrip(conv: Strconv, tool: string, args: Args)
    requires tool !in ListTools() + Named("get") + Named("put") + Named("patch") + Named("delete")
    requires BuildRequest(conv, tool, args).Some?
    ensures DecodeRequest(BuildRequest(conv, tool, args).value) == Normal(conv, tool, args)
  {
    hide DecodeRequest, AdminPath, QuerySuffix, ByID, AsString, AsInt, ListParams, ExportParams, Itoa, Escape,
      BundleBody, ListTools, Named;
    if tool == "preview_import" || tool == "apply_import" {
      var tail := ["control", "imports", if tool == "preview_import" then "preview" else "apply"];
      ControlDecodes(POST, tail, [], Some(BundleBody(args)), tool);
      NoQuery(AdminPath(tail));
    } else if tool == "export_bundle" {
      ControlDecodes(GET, ["control", "exports"], ExportParams(args), None, tool);
    } else if tool == "history_list" {
      var limit := AsInt(conv, args, "limit", 10);
      LimitQuery(limit);
      var path := AdminPath(["control", "history"]);
      assert path + ("?limit=" + Itoa(limit)) == path + "?limit=" + Itoa(limit);
      ControlDecodes(GET, ["control", "history"], [("limit", Itoa(limit))], None, tool);
    } else if tool == "history_rollback" {
      RollbackDecodes(AsString(args, "id"));
    } else {
      var last := if tool == "get_schema" then "schema" else if tool == "list_plugins" then "plugins" else "stats";
      var tail := ["control", last];
      ControlDecodes(GET, tail, [], None, tool);
      NoQuery(AdminPath(tail));
    }
  }

  /** Equal requests come from the same tool with the same normalised arguments. */
  lemma BuildRequestInjective(conv: Strconv, tool1: string, args1: Args, tool2: string, args2: Args)
    requires BuildRequest(conv, tool1, args1).Some? &&
      BuildRequest(conv, tool1, args1) == BuildRequest(conv, tool2, args2)
    ensures tool1 == tool2 && Normal(conv, tool1, args1) == Normal(conv, tool2, args2)
  {
    hide *;
    RequestRoundTrip(conv, tool1, args1);
    RequestRoundTrip(conv, tool2, args2);
    NormalTool(conv, tool1, args1);
    NormalTool(conv, tool2, args2);
  }

  lemma NormalTool(conv: Strconv, tool: string, args: Args)
    ensures Normal(conv, tool, args).tool == tool
  {
    hide ListTools, Named, ListParams, ExportParams, Itoa;
  }

  /** The first value of a parameter, or nothing. */
  function Param(params: Params, key: string): string {
    if params == [] then "" else if params[0].0 == key then params[0].1 else Param(params[1..], key)
  }

  lemma ParamAppend(a: Params, b: Params, key: string)
    ensures Param(a + b, key) == if exists i :: 0 <= i < |a| && a[i].0 == key then Param(a, key) else Param(b, key)
  {
    if a == [] {
      assert a + b == b;
    } else {
      assert (a + b)[1..] == a[1..] + b;
      ParamAppend(a[1..], b, key);
      assert forall i :: 0 <= i < |a| - 1 ==> a[1..][i] == a[i + 1];
    }
  }

  /** Equal list queries ask for the same keyword, the same positive page and the same positive page size. */
  lemma ListParamsInjective(conv: Strconv, args1: Args, args2: Args)
    requires ListParams(conv, args1) == ListParams(conv, args2)
    ensures AsString(args1, "keyword") == AsString(args2, "keyword")
    ensures MaxInt(0, AsInt(conv, args1, "page", 0)) == MaxInt(0, AsInt(conv, args2, "page", 0))
    ensures MaxInt(0, AsInt(conv, args1, "page_size", 0)) == MaxInt(0, AsInt(conv, args2, "page_size", 0))
  {
    hide ListParams, AsInt, AsString;
    ListParamsRead(conv, args1);
    ListParamsRead(conv, args2);
    SamePositive(AsInt(conv, args1, "page", 0), AsInt(conv, args2, "page", 0));
    SamePositive(AsInt(conv, args1, "page_size", 0), AsInt(conv, args2, "page_size", 0));
  }

  function PositiveText(n: int): string {
    if n > 0 then Itoa(n) else ""
  }

  lemma SamePositive(m: int, n: int)
    ensures PositiveText(m) == PositiveText(n) ==> MaxInt(0, m) == MaxInt(0, n)
  {
    hide Itoa;
    ItoaRoundTrip(m);
    ItoaRoundTrip(n);
  }

  lemma ListParamsRead(conv: Strconv, args: Args)
    ensures var params := ListParams(conv, args);
            && Param(params, "keyword") == AsString(args, "keyword")
            && Param(params, "page") == PositiveText(AsInt(conv, args, "page", 0))
            && Param(params, "page_size") == PositiveText(AsInt(conv, args, "page_size", 0))
  {
    hide AsInt, AsString, Itoa;
    var page, size, keyword := AsInt(conv, args, "page", 0), AsInt(conv, args, "page_size", 0),
      AsString(args, "keyword");
    var a := if keyword != "" then [("keyword", keyword)] else [];
    var b := if page > 0 then [("page", Itoa(page))] else [];
    var c := if size > 0 then [("page_size", Itoa(size))] else [];
    assert ListParams(conv, args) == a + b + c;
    ThreeParts(a, b, c, "keyword");
    ThreeParts(a, b, c, "page");
    ThreeParts(a, b, c, "page_size");
  }

  lemma ThreeParts(a: Params, b: Params, c: Params, key: string)
    requires |a| <= 1 && |b| <= 1 && |c| <= 1
    ensures Param(a + b + c, key) == if a != [] && a[0].0 == key then a[0].1
                                     else if b != [] && b[0].0 == key then b[0].1
                                     else if c != [] && c[0].0 == key then c[0].1 else ""
  {
    ParamAppend(a + b, c, key);
    ParamAppend(a, b, key);
  }

  /** Equal export queries ask for the same format and the same kinds, in order. */
  lemma ExportParamsInjective(args1: Args, args2: Args)
    requires ExportParams(args1) == ExportParams(args2)
    ensures AsString(args1, "format") == AsString(args2, "format") &&
      StringSlice(args1, "kinds") == StringSlice(args2, "kinds")
  {
    hide AsString, StringSlice;
    ExportParamsRead(args1);
    ExportParamsRead(args2);
  }

  function KindParams(params: Params): seq<string> {
    var rest := if params != [] && params[0].0 == "format" then params[1..] else params;
    seq(|rest|, i requires 0 <= i < |rest| => rest[i].1)
  }

  lemma ExportParamsRead(args: Args)
    ensures KindParams(ExportParams(args)) == StringSlice(args, "kinds")
    ensures AsString(args, "format") ==
              if ExportParams(args) != [] && ExportParams(args)[0].0 == "format" then ExportParams(args)[0].1 else ""
  {
    hide AsString, StringSlice;
    var format, kinds := AsString(args, "format"), StringSlice(args, "kinds");
    var tail: Params := seq(|kinds|, i requires 0 <= i < |kinds| => ("kind", kinds[i]));
    if format == "" {
      assert ExportParams(args) == tail;
    } else {
      assert ExportParams(args)[1..] == tail;
    }
  }

  lemma GetRequest(conv: Strconv, noun: string, args: Args)
    requires noun in NOUNS && AsString(args, "id") != ""
    ensures BuildRequest(conv, "get" + "_" + noun, args) ==
              Some(RequestSpec(GET, AdminPath([noun + "s", Escape(Segment, AsString(args, "id"))]), None))
  {
    hide AdminPath, KindOf, AsString, ListParams, ExportParams, QuerySuffix, Escape;
    var tool := "get" + "_" + noun;
    assert tool[0] == 'g';
    assert tool in Named("get") && tool !in ListTools();
    KindOfNamed("get", noun);
  }

  lemma PutRequest(conv: Strconv, noun: string, args: Args)
    requires noun in NOUNS && AsString(args, "id") != "" && AsMap(args, "body").Some?
    ensures BuildRequest(conv, "put" + "_" + noun, args) ==
              Some(RequestSpec(PUT, AdminPath([noun + "s", Escape(Segment, AsString(args, "id"))]),
                               AsMap(args, "body")))
  {
    hide AdminPath, KindOf, AsString, ListParams, ExportParams, QuerySuffix, Escape, AsMap;
    var tool := "put" + "_" + noun;
    assert tool[0] == 'p';
    assert tool in Named("put") && tool !in ListTools() && tool !in Named("get");
    KindOfNamed("put", noun);
  }

  /** The tools that only read. */
  predicate ReadTool(tool: string) {
    tool in ListTools() + Named("get") + {"export_bundle", "history_list", "get_schema", "list_plugins", "get_stats"}
  }

  lemma ReadToolsGet(conv: Strconv, tool: string, args: Args)
    requires ReadTool(tool) && BuildRequest(conv, tool, args).Some?
    ensures BuildRequest(conv, tool, args).value.verb == GET
  {
    hide AdminPath, QuerySuffix, ListParams, ExportParams, Itoa, Escape, BundleBody, ParseKindAndID, AsInt;
    assert tool[0] in {'l', 'g', 'e', 'h'};
  }
}
