/** The texts of requests, spelled out: paths, bodies and list items. */
module RequestTexts {
  import opened Wrappers
  import opened Text
  import opened Options
  import opened Encoding
  import opened Requests

  /** Every path of the admin interface. */
  lemma AdminPaths(a: string, b: string, c: string, d: string)
    ensures AdminPath([a]) == "/apisix/admin/" + a
    ensures AdminPath([a, b]) == "/apisix/admin/" + a + "/" + b
    ensures AdminPath([a, b, c]) == "/apisix/admin/" + a + "/" + b + "/" + c
    ensures AdminPath([a, b, c, d]) == "/apisix/admin/" + a + "/" + b + "/" + c + "/" + d
  {
    hide Join;
    JoinOne(a);
    JoinTwo(a, b);
    JoinMore(a, b, c, []);
    JoinTwo(b, c);
    JoinMore(a, b, c, [d]);
    JoinMore(b, c, d, []);
    JoinTwo(c, d);
    assert [a, b, c] + [] == [a, b, c] && [b, c] + [] == [b, c] && [b, c, d] + [] == [b, c, d] && [c, d] + [] == [c, d];
    assert [a, b, c] + [d] == [a, b, c, d] && [b, c] + [d] == [b, c, d];
    hide *;
    Regrouped("/apisix/admin/", a, b);
    Regrouped("/apisix/admin/", a, b + "/" + c);
    Regrouped("/apisix/admin/" + a + "/", b, c);
    Regrouped("/apisix/admin/", a, b + "/" + (c + "/" + d));
    Regrouped("/apisix/admin/" + a + "/", b, c + "/" + d);
    Regrouped("/apisix/admin/" + a + "/" + b + "/", c, d);
  }

  lemma Regrouped(x: string, a: string, rest: string)
    ensures x + (a + "/" + rest) == x + a + "/" + rest
  {
  }

  lemma JoinTwo(a: string, b: string)
    ensures Join([a, b], '/') == a + "/" + b
  {
    assert [a, b][1..] == [b];
    JoinOne(b);
  }

  lemma JoinOne(a: string)
    ensures Join([a], '/') == a
  {
  }

  lemma JoinMore(a: string, b: string, c: string, rest: seq<string>)
    ensures Join([a, b, c] + rest, '/') == a + "/" + Join([b, c] + rest, '/')
  {
    assert ([a, b, c] + rest)[1..] == [b, c] + rest;
  }

  /** An import sends the object under "request", or all its arguments when there is none. */
  lemma ImportSends(conv: Strconv, args: Args)
    ensures var sent := if "request" in args && args["request"].Obj? then args["request"].fields else args;
            && BuildRequest(conv, "preview_import", args) ==
                 Some(RequestSpec(POST, "/apisix/admin/" + "control" + "/" + "imports" + "/" + "preview", Some(sent)))
            && BuildRequest(conv, "apply_import", args) ==
                 Some(RequestSpec(POST, "/apisix/admin/" + "control" + "/" + "imports" + "/" + "apply", Some(sent)))
  {
    hide AdminPath, Named, ListTools, ByID;
    AdminPaths("control", "imports", "preview", "");
    AdminPaths("control", "imports", "apply", "");
    ToolApart("preview_import");
    ToolApart("apply_import");
  }

  /** These tools belong to none of the families of five. */
  lemma ToolApart(tool: string)
    requires tool in {"preview_import", "apply_import", "history_list"}
    ensures tool !in ListTools() && tool !in Named("get") && tool !in Named("put") && tool !in Named("patch")
    ensures tool !in Named("delete")
  {
    forall verb, noun | verb in {"get", "put", "patch", "delete"} && noun in NOUNS ensures tool != verb + "_" + noun {
      assert (verb + "_" + noun)[|verb|] == '_';
    }
    forall noun | noun in NOUNS ensures tool != "list_" + noun + "s" {
      assert ("list_" + noun + "s")[0] == 'l';
    }
  }

  /** A query of two parameters. */
  lemma QueryText(k1: string, v1: string, k2: string, v2: string)
    ensures QuerySuffix([(k1, v1)]) == "?" + (Escape(Query, k1) + "=" + Escape(Query, v1))
    ensures QuerySuffix([(k1, v1), (k2, v2)]) ==
              "?" + (Escape(Query, k1) + "=" + Escape(Query, v1) + "&" + (Escape(Query, k2) + "=" + Escape(Query, v2)))
  {
    hide Escape, Join;
    var a, b := Escape(Query, k1) + "=" + Escape(Query, v1), Escape(Query, k2) + "=" + Escape(Query, v2);
    PairsText(k1, v1, k2, v2);
    TwoJoined(a, b);
  }

  lemma PairsText(k1: string, v1: string, k2: string, v2: string)
    ensures EncodePairs([(k1, v1)]) == [Escape(Query, k1) + "=" + Escape(Query, v1)]
    ensures EncodePairs([(k1, v1), (k2, v2)]) ==
              [Escape(Query, k1) + "=" + Escape(Query, v1), Escape(Query, k2) + "=" + Escape(Query, v2)]
  {
    hide Escape;
  }

  lemma TwoJoined(a: string, b: string)
    ensures Join([a], '&') == a && Join([a, b], '&') == a + "&" + b
  {
    assert [a, b][1..] == [b];
  }

  /** The history is asked for with a limit, 10 unless another is given. */
  lemma HistoryAsks(conv: Strconv, args: Args)
    ensures var limit := if "limit" in args then AsInt(conv, args, "limit", 10) else 10;
            BuildRequest(conv, "history_list", args) ==
              Some(RequestSpec(GET, "/apisix/admin/" + "control" + "/" + "history" + "?limit=" + Itoa(limit), None))
  {
    hide AdminPath, Named, ListTools, ByID, Itoa;
    AdminPaths("control", "history", "", "");
    ToolApart("history_list");
  }

  // ---------- List arguments ----------

  predicate Worded(item: Value) {
    item.Str? && TrimSpace(item.s) != ""
  }

  /** From a list exactly the texts that are not blank survive, each trimmed, in their order. */
  lemma {:induction false} ItemsKept(items: seq<Value>) returns (at: seq<nat>)
    ensures |at| == |TrimmedStrings(items)|
    ensures forall k :: 0 <= k < |at| ==>
      at[k] < |items| && Worded(items[at[k]]) && TrimmedStrings(items)[k] == TrimSpace(items[at[k]].s)
    ensures forall j, k :: 0 <= j < k < |at| ==> at[j] < at[k]
    ensures forall i :: 0 <= i < |items| && Worded(items[i]) ==> i in at
  {
    hide TrimSpace;
    at := [];
    if items != [] {
      var n := |items| - 1;
      at := ItemsKept(items[..n]);
      if Worded(items[n]) {
        at := at + [n];
      }
    }
  }
}
