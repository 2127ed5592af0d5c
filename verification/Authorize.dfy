/** Per-tool scope authorisation. */
module Authorize {
  import opened Wrappers
  import opened Text

  datatype Decision = Decision(allowed: bool, reason: string)

  datatype Policy = Policy(toolScopes: map<string, string>, requiredScopes: seq<string>)

  const LEGACY_READ := {"mcp:read", "routes:read", "services:read", "upstreams:read", "plugins:read",
                        "global_rules:read", "metrics:read", "gateway:read"}

  const LEGACY_WRITE := {"mcp:write", "routes:write", "services:write", "upstreams:write", "plugins:write",
                         "global_rules:write", "gateway:bundle:apply", "gateway:dangerous", "admin:dangerous"}

  const ADMIN := "admin:*"

  /** The older scope names accepted for a requirement. */
  function Aliases(required: string): set<string> {
    var r := ToLower(TrimSpace(required));
    if r == "read" then LEGACY_READ else if r == "gateway:write" then LEGACY_WRITE else {}
  }

  predicate HasScope(required: string, actual: string) {
    EqualFold(required, actual) || exists scope :: scope in Aliases(required) && EqualFold(actual, scope)
  }

  predicate HasAnyScope(scopes: seq<string>, required: string, allowAdminWildcard: bool) {
    scopes != [] && ((allowAdminWildcard && EqualFold(scopes[0], ADMIN)) || HasScope(required, scopes[0]) ||
                     HasAnyScope(scopes[1..], required, allowAdminWildcard))
  }

  /** The first non-blank global requirement that no scope meets. */
  function FirstMissing(requiredScopes: seq<string>, scopes: seq<string>): Option<string> {
    if requiredScopes == [] then None
    else
      var required := TrimSpace(requiredScopes[0]);
      if required != "" && !HasAnyScope(scopes, required, false) then Some(required)
      else FirstMissing(requiredScopes[1..], scopes)
  }

  function Check(policy: Policy, scopes: seq<string>, tool: string): Decision {
    match FirstMissing(policy.requiredScopes, scopes)
    case Some(required) => Decision(false, "missing required scope: " + required)
    case None =>
      if tool !in policy.toolScopes then Decision(false, "tool not registered in auth.tool_scope_map")
      else if HasAnyScope(scopes, policy.toolScopes[tool], true) then Decision(true, "")
      else Decision(false, "missing required scope: " + policy.toolScopes[tool])
  }

  /** The scopes as a set, letter case folded away. */
  function Folded(scopes: seq<string>): set<string> {
    set s | s in scopes :: ToLower(s)
  }

  /** A folded scope meets the requirement. */
  predicate Meets(required: string, folded: string, allowAdminWildcard: bool) {
    || (allowAdminWildcard && folded == ToLower(ADMIN))
    || folded == ToLower(required)
    || exists scope :: scope in Aliases(required) && folded == ToLower(scope)
  }

  lemma {:induction false} HasAnyScopeFolded(scopes: seq<string>, required: string, allowAdminWildcard: bool)
    ensures HasAnyScope(scopes, required, allowAdminWildcard) <==>
              exists s :: s in Folded(scopes) && Meets(required, s, allowAdminWildcard)
  {
    hide Aliases, ToLower;
    if scopes != [] {
      HasAnyScopeFolded(scopes[1..], required, allowAdminWildcard);
      FoldedHead(scopes);
      assert Meets(required, ToLower(scopes[0]), allowAdminWildcard) <==>
             (allowAdminWildcard && EqualFold(scopes[0], ADMIN)) || HasScope(required, scopes[0]);
    }
  }

  lemma FoldedHead(scopes: seq<string>)
    requires scopes != []
    ensures Folded(scopes) == {ToLower(scopes[0])} + Folded(scopes[1..])
  {
    hide ToLower;
    assert scopes == [scopes[0]] + scopes[1..];
  }

  lemma HasAnyScopeMonotone(a: seq<string>, b: seq<string>, required: string, allowAdminWildcard: bool)
    requires Folded(a) <= Folded(b) && HasAnyScope(a, required, allowAdminWildcard)
    ensures HasAnyScope(b, required, allowAdminWildcard)
  {
    hide Meets, Folded;
    HasAnyScopeFolded(a, required, allowAdminWildcard);
    HasAnyScopeFolded(b, required, allowAdminWildcard);
  }

  lemma {:induction false} FirstMissingMonotone(requiredScopes: seq<string>, a: seq<string>, b: seq<string>)
    requires Folded(a) <= Folded(b) && FirstMissing(requiredScopes, a).None?
    ensures FirstMissing(requiredScopes, b).None?
  {
    hide Folded, HasAnyScope;
    if requiredScopes != [] {
      var required := TrimSpace(requiredScopes[0]);
      if required != "" {
        HasAnyScopeMonotone(a, b, required, false);
      }
      FirstMissingMonotone(requiredScopes[1..], a, b);
    }
  }

  /** More scopes never turn an allowed call into a refused one. */
  lemma CheckMonotone(policy: Policy, a: seq<string>, b: seq<string>, tool: string)
    requires Folded(a) <= Folded(b) && Check(policy, a, tool).allowed
    ensures Check(policy, b, tool).allowed
  {
    hide Folded, HasAnyScope, FirstMissing;
    FirstMissingMonotone(policy.requiredScopes, a, b);
    HasAnyScopeMonotone(a, b, policy.toolScopes[tool], true);
  }

  lemma {:induction false} FirstMissingFolded(requiredScopes: seq<string>, a: seq<string>, b: seq<string>)
    requires Folded(a) == Folded(b)
    ensures FirstMissing(requiredScopes, a) == FirstMissing(requiredScopes, b)
  {
    hide Folded, HasAnyScope, Meets;
    if requiredScopes != [] {
      HasAnyScopeFolded(a, TrimSpace(requiredScopes[0]), false);
      HasAnyScopeFolded(b, TrimSpace(requiredScopes[0]), false);
      FirstMissingFolded(requiredScopes[1..], a, b);
    }
  }

  /** Order, repetition and letter case of the scopes do not affect the decision, nor its reason. */
  lemma CheckFolded(policy: Policy, a: seq<string>, b: seq<string>, tool: string)
    requires Folded(a) == Folded(b)
    ensures Check(policy, a, tool) == Check(policy, b, tool)
  {
    hide Folded, HasAnyScope, FirstMissing, Meets;
    FirstMissingFolded(policy.requiredScopes, a, b);
    if tool in policy.toolScopes {
      HasAnyScopeFolded(a, policy.toolScopes[tool], true);
      HasAnyScopeFolded(b, policy.toolScopes[tool], true);
    }
  }

  /** A call is allowed exactly when every non-blank global requirement and the tool's own requirement are met; the
      wildcard counts for the latter only. */
  lemma AllowedExactly(policy: Policy, scopes: seq<string>, tool: string)
    ensures Check(policy, scopes, tool).allowed <==>
      && (forall r :: r in policy.requiredScopes && TrimSpace(r) != "" ==>
            exists s :: s in Folded(scopes) && Meets(TrimSpace(r), s, false))
      && tool in policy.toolScopes
      && exists s :: s in Folded(scopes) && Meets(policy.toolScopes[tool], s, true)
  {
    hide Folded, HasAnyScope, FirstMissing, Meets, TrimSpace;
    NoneMissing(policy.requiredScopes, scopes);
    if tool in policy.toolScopes {
      HasAnyScopeFolded(scopes, policy.toolScopes[tool], true);
    }
  }

  lemma {:induction false} NoneMissing(requiredScopes: seq<string>, scopes: seq<string>)
    ensures FirstMissing(requiredScopes, scopes).None? <==>
      forall r :: r in requiredScopes && TrimSpace(r) != "" ==>
        exists s :: s in Folded(scopes) && Meets(TrimSpace(r), s, false)
  {
    hide Folded, HasAnyScope, Meets, TrimSpace;
    if requiredScopes != [] {
      HasAnyScopeFolded(scopes, TrimSpace(requiredScopes[0]), false);
      NoneMissing(requiredScopes[1..], scopes);
      assert forall r :: r in requiredScopes <==> r == requiredScopes[0] || r in requiredScopes[1..];
    }
  }

  /** A requirement that no scope meets. */
  ghost predicate Unmet(scopes: seq<string>, required: string) {
    TrimSpace(required) != "" && forall s :: s in Folded(scopes) ==> !Meets(TrimSpace(required), s, false)
  }

  lemma {:induction false} FirstUnmet(requiredScopes: seq<string>, scopes: seq<string>, i: nat)
    requires i < |requiredScopes| && Unmet(scopes, requiredScopes[i])
    requires forall j :: 0 <= j < i ==> !Unmet(scopes, requiredScopes[j])
    ensures FirstMissing(requiredScopes, scopes) == Some(TrimSpace(requiredScopes[i]))
  {
    hide Folded, HasAnyScope, Meets, TrimSpace;
    HasAnyScopeFolded(scopes, TrimSpace(requiredScopes[0]), false);
    if i > 0 {
      assert !Unmet(scopes, requiredScopes[0]);
      FirstUnmet(requiredScopes[1..], scopes, i - 1);
    }
  }

  /** A refusal names the first global requirement that is not met; if all are met, it says that the tool is not
      registered, or names what the tool requires. */
  lemma RefusedExactly(policy: Policy, scopes: seq<string>, tool: string, i: nat)
    requires i <= |policy.requiredScopes| && forall j :: 0 <= j < i ==> !Unmet(scopes, policy.requiredScopes[j])
    ensures i < |policy.requiredScopes| && Unmet(scopes, policy.requiredScopes[i]) ==>
      Check(policy, scopes, tool) == Decision(false, "missing required scope: " + TrimSpace(policy.requiredScopes[i]))
    ensures i == |policy.requiredScopes| && tool !in policy.toolScopes ==>
      Check(policy, scopes, tool) == Decision(false, "tool not registered in auth.tool_scope_map")
    ensures i == |policy.requiredScopes| && tool in policy.toolScopes ==>
      Check(policy, scopes, tool) ==
        if exists s :: s in Folded(scopes) && Meets(policy.toolScopes[tool], s, true) then Decision(true, "")
        else Decision(false, "missing required scope: " + policy.toolScopes[tool])
  {
    hide Folded, HasAnyScope, FirstMissing, Meets, TrimSpace;
    if i < |policy.requiredScopes| {
      if Unmet(scopes, policy.requiredScopes[i]) {
        FirstUnmet(policy.requiredScopes, scopes, i);
      }
    } else {
      NoneMissing(policy.requiredScopes, scopes);
      assert forall r :: r in policy.requiredScopes ==> !Unmet(scopes, r);
      if tool in policy.toolScopes {
        HasAnyScopeFolded(scopes, policy.toolScopes[tool], true);
      }
    }
  }

  // ---------- The shipped configuration ----------

  const READ_TOOLS := {"list_routes", "get_route", "list_services", "list_upstreams", "list_plugin_configs",
                       "list_global_rules", "export_bundle", "history_list", "get_schema", "list_plugins", "get_stats",
                       "analyze_latency"}

  const WRITE_TOOLS := {"put_route", "patch_route", "delete_route", "put_service", "put_upstream", "put_plugin_config",
                        "put_global_rule", "preview_import", "apply_import", "tune_upstream_timeout",
                        "history_rollback"}

  function Shipped(): Policy {
    Policy(map tool | tool in READ_TOOLS + WRITE_TOOLS :: if tool in READ_TOOLS then "read" else "gateway:write",
           ["mcp:tools"])
  }

  /** No scope grants writing: not the scope itself, not an older name of it, not the wildcard. */
  predicate NoWriteScope(scopes: seq<string>) {
    forall s :: s in scopes ==> ToLower(s) !in LEGACY_WRITE + {"gateway:write", ADMIN}
  }

  lemma LowerConstants()
    ensures ToLower("read") == "read" && ToLower("gateway:write") == "gateway:write" && ToLower(ADMIN) == ADMIN
    ensures ToLower("mcp:tools") == "mcp:tools"
  {
    LowerFixed("read");
    LowerFixed("gateway:write");
    LowerFixed(ADMIN);
    LowerFixed("mcp:tools");
  }

  lemma LowerReads()
    ensures forall s :: s in LEGACY_READ ==> ToLower(s) == s
  {
    forall s | s in LEGACY_READ ensures ToLower(s) == s {
      LowerFixed(s);
    }
  }

  lemma LowerWrites()
    ensures forall s :: s in LEGACY_WRITE ==> ToLower(s) == s
  {
    forall s | s in LEGACY_WRITE ensures ToLower(s) == s {
      LowerFixed(s);
    }
  }

  /** The scopes, in small letters, that allow the tools of each kind. */
  predicate GrantsReading(s: string) {
    s in {"read", "admin:*", "mcp:read", "routes:read", "services:read", "upstreams:read", "plugins:read",
          "global_rules:read", "metrics:read", "gateway:read"}
  }

  predicate GrantsWriting(s: string) {
    s in {"gateway:write", "admin:*", "mcp:write", "routes:write", "services:write", "upstreams:write",
          "plugins:write", "global_rules:write", "gateway:bundle:apply", "gateway:dangerous", "admin:dangerous"}
  }

  predicate ReadingTool(tool: string) {
    tool in {"list_routes", "get_route", "list_services", "list_upstreams", "list_plugin_configs", "list_global_rules",
             "export_bundle", "history_list", "get_schema", "list_plugins", "get_stats", "analyze_latency"}
  }

  predicate WritingTool(tool: string) {
    tool in {"put_route", "patch_route", "delete_route", "put_service", "put_upstream", "put_plugin_config",
             "put_global_rule", "preview_import", "apply_import", "tune_upstream_timeout", "history_rollback"}
  }

  lemma ReadMeets(folded: string)
    ensures Meets("read", folded, true) <==> GrantsReading(folded)
  {
    hide ToLower, TrimSpace;
    LowerConstants();
    LowerReads();
    assert TrimSpace("read") == "read" && Aliases("read") == LEGACY_READ;
    hide Aliases;
  }

  lemma WriteMeets(folded: string)
    ensures Meets("gateway:write", folded, true) <==> GrantsWriting(folded)
  {
    hide ToLower, TrimSpace;
    LowerConstants();
    LowerWrites();
    assert TrimSpace("gateway:write") == "gateway:write" && "gateway:write" != "read";
    assert Aliases("gateway:write") == LEGACY_WRITE;
    hide Aliases;
  }

  lemma ToolsMeets(folded: string)
    ensures Meets("mcp:tools", folded, false) <==> folded == "mcp:tools"
  {
    hide ToLower, TrimSpace;
    LowerConstants();
    assert TrimSpace("mcp:tools") == "mcp:tools" && "mcp:tools" != "read" && "mcp:tools" != "gateway:write";
  }

  lemma ShippedTools(tool: string)
    ensures tool in Shipped().toolScopes <==> ReadingTool(tool) || WritingTool(tool)
    ensures ReadingTool(tool) ==> Shipped().toolScopes[tool] == "read"
    ensures WritingTool(tool) ==> Shipped().toolScopes[tool] == "gateway:write"
    ensures Shipped().requiredScopes == ["mcp:tools"]
  {
  }

  /** Under the shipped configuration a call is allowed exactly when the principal holds "mcp:tools" and, for a reading
      tool, a reading scope, or for a writing tool, a writing one; letter case does not matter. */
  lemma ShippedExactly(scopes: seq<string>, tool: string)
    ensures Check(Shipped(), scopes, tool).allowed <==>
      && (exists s :: s in scopes && ToLower(s) == "mcp:tools")
      && (|| (ReadingTool(tool) && exists s :: s in scopes && GrantsReading(ToLower(s)))
          || (WritingTool(tool) && exists s :: s in scopes && GrantsWriting(ToLower(s))))
  {
    hide Check, Meets, ToLower, TrimSpace, ReadingTool, WritingTool, GrantsReading, GrantsWriting, Shipped;
    AllowedExactly(Shipped(), scopes, tool);
    ShippedTools(tool);
    ToolsTrimmed();
    forall s
      ensures Meets("read", s, true) <==> GrantsReading(s)
      ensures Meets("gateway:write", s, true) <==> GrantsWriting(s)
      ensures Meets("mcp:tools", s, false) <==> s == "mcp:tools"
    {
      ReadMeets(s);
      WriteMeets(s);
      ToolsMeets(s);
    }
    assert "mcp:tools" in Shipped().requiredScopes;
    assert "mcp:tools" in Folded(scopes) <==> exists s :: s in scopes && ToLower(s) == "mcp:tools";
    assert (exists s :: s in Folded(scopes) && Meets("mcp:tools", s, false)) <==> "mcp:tools" in Folded(scopes);
    assert (exists s :: s in Folded(scopes) && Meets("read", s, true)) <==>
           (exists s :: s in scopes && GrantsReading(ToLower(s)));
    assert (exists s :: s in Folded(scopes) && Meets("gateway:write", s, true)) <==>
           (exists s :: s in scopes && GrantsWriting(ToLower(s)));
  }

  lemma ToolsTrimmed()
    ensures TrimSpace("mcp:tools") == "mcp:tools"
  {
    hide TrimSpace;
    assert Bare("mcp:tools", IsSpace);
  }

  /** Under the shipped configuration such a principal is allowed reading tools only. */
  lemma ReadersOnlyRead(scopes: seq<string>, tool: string)
    requires NoWriteScope(scopes) && Check(Shipped(), scopes, tool).allowed
    ensures tool in READ_TOOLS
  {
    hide HasAnyScope, FirstMissing, ToLower;
    if tool !in READ_TOOLS {
      WriteNeedsScope(scopes);
    }
  }

  lemma WriteNeedsScope(scopes: seq<string>)
    requires NoWriteScope(scopes)
    ensures !HasAnyScope(scopes, "gateway:write", true)
  {
    hide HasAnyScope, ToLower, TrimSpace;
    HasAnyScopeFolded(scopes, "gateway:write", true);
    LowerConstants();
    LowerWrites();
    assert TrimSpace("gateway:write") == "gateway:write";
  }
}
