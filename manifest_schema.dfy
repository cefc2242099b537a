/** The manifest format (context/manifest-schema.ts): every section schema up
    to `ManifestSchema`, as schema values, and what parsing a manifest with
    them accepts and fills in.

    Parsing is structural only. Nothing here checks that `state_in` names a
    declared state, that an emitted event is declared, that a `from_db.table`
    exists or that a terminal state has no transitions: the schemas do not. */
module ManifestSchema {
  import opened Json
  import opened Zod

  const STR := SString([])
  const NUM := SNumber([])
  const MODEL := SEnum(["haiku", "sonnet", "opus"])

  // --- State machine (lines 7-16) ---

  const STATE_DEFINITION_SCHEMA := SObject(map[
    "name" := Field(STR, Required),
    "transitions_to" := Field(SArray(STR), Required),
    "terminal" := Field(SBool, Optional)
  ])

  const STATE_MACHINE_SCHEMA := SObject(map[
    "initial" := Field(STR, Required),
    "states" := Field(SArray(STATE_DEFINITION_SCHEMA), Required)
  ])

  // --- Events (lines 22-35) ---

  const EVENT_FIELD_TYPE := SEnum(["string", "number", "boolean"])

  const EVENT_FIELD_SCHEMA := SObject(map[
    "type" := Field(EVENT_FIELD_TYPE, Required),
    "required" := Field(SBool, Optional),
    "enum" := Field(SArray(STR), Optional),
    "min" := Field(NUM, Optional),
    "max" := Field(NUM, Optional)
  ])

  const EVENT_DEFINITION_SCHEMA := SObject(map[
    "name" := Field(STR, Required),
    "description" := Field(STR, Optional),
    "payload" := Field(SRecord(EVENT_FIELD_SCHEMA), Required),
    "idempotency_key" := Field(STR, Optional)
  ])

  // --- Agent contract (lines 41-70) ---

  const DB_SOURCE_SCHEMA := SObject(map[
    "table" := Field(STR, Required),
    "as" := Field(STR, Required),
    "template" := Field(STR, Optional),
    "must_have" := Field(SArray(STR), Optional)
  ])

  const STATIC_SOURCE_SCHEMA := SObject(map[
    "source" := Field(STR, Required),
    "dest" := Field(STR, Required)
  ])

  const PERSIST_TO := SEnum(["supabase_storage", "database", "none"])

  const ARTIFACT_SCHEMA := SObject(map[
    "file" := Field(STR, Required),
    "required" := Field(SBool, Default(JBool(true))),
    "persist_to" := Field(PERSIST_TO, Default(JStr("supabase_storage")))
  ])

  /** `z.union([z.string(), z.array(z.string())])`. */
  const STATE_IN := SUnion([STR, SArray(STR)])

  const CONTEXT_IN_SCHEMA := SObject(map[
    "from_db" := Field(SArray(DB_SOURCE_SCHEMA), Optional),
    "static" := Field(SArray(STATIC_SOURCE_SCHEMA), Optional)
  ])

  const CONTEXT_OUT_SCHEMA := SObject(map[
    "artifacts" := Field(SArray(ARTIFACT_SCHEMA), Optional)
  ])

  const CONTRACT_SCHEMA := SObject(map[
    "state_in" := Field(STATE_IN, Required),
    "state_out" := Field(STR, Required),
    "context_in" := Field(CONTEXT_IN_SCHEMA, Optional),
    "context_out" := Field(CONTEXT_OUT_SCHEMA, Optional),
    "output_schema" := Field(STR, Required)
  ])

  // --- Agent config, limits, workspace (lines 76-115) ---

  const SUBAGENT_SCHEMA := SObject(map[
    "name" := Field(STR, Required),
    "description" := Field(STR, Optional),
    "model" := Field(MODEL, Required),
    "tools" := Field(SArray(STR), Required)
  ])

  const MCP_SERVER_SCHEMA := SObject(map[
    "name" := Field(STR, Required),
    "url" := Field(STR, Required)
  ])

  const AGENT_CONFIG_SCHEMA := SObject(map[
    "model" := Field(MODEL, Required),
    "allowed_tools" := Field(SArray(STR), Required),
    "permission_mode" := Field(SEnum(["default", "acceptEdits", "bypassPermissions"]), Optional),
    "subagents" := Field(SArray(SUBAGENT_SCHEMA), Optional),
    "mcp_servers" := Field(SArray(MCP_SERVER_SCHEMA), Optional)
  ])

  const AGENT_LIMITS_SCHEMA := SObject(map[
    "max_tokens" := Field(NUM, Default(JNum(50000.0))),
    "max_tool_calls" := Field(NUM, Default(JNum(50.0))),
    "timeout_seconds" := Field(NUM, Default(JNum(300.0))),
    "max_retries" := Field(NUM, Default(JNum(3.0)))
  ])

  const CLEANUP := SEnum(["on_success", "on_complete", "never"])

  const WORKSPACE_SCHEMA := SObject(map[
    "base" := Field(STR, Optional),
    "cleanup" := Field(CLEANUP, Default(JStr("on_success"))),
    "snapshot_on_failure" := Field(SBool, Default(JBool(true)))
  ])

  // --- Full agent (lines 121-134) ---

  const TRIGGER_SCHEMA := SObject(map["event" := Field(STR, Required)])

  const EMIT_SCHEMA := SObject(map[
    "event" := Field(STR, Required),
    "when" := Field(STR, Optional),
    "delay" := Field(STR, Optional)
  ])

  const AGENT_SCHEMA := SObject(map[
    "name" := Field(STR, Required),
    "description" := Field(STR, Required),
    "triggers" := Field(SArray(TRIGGER_SCHEMA), Required),
    "emits" := Field(SArray(EMIT_SCHEMA), Required),
    "contract" := Field(CONTRACT_SCHEMA, Required),
    "config" := Field(AGENT_CONFIG_SCHEMA, Required),
    "limits" := Field(AGENT_LIMITS_SCHEMA, Optional),
    "workspace" := Field(WORKSPACE_SCHEMA, Optional)
  ])

  // --- Webhook and cron (lines 140-159) ---

  const WEBHOOK_AUTH := SEnum(["hmac", "api_key", "bearer", "none"])

  const WEBHOOK_SCHEMA := SObject(map[
    "name" := Field(STR, Required),
    "path" := Field(STR, Required),
    "auth" := Field(WEBHOOK_AUTH, Required),
    "secret" := Field(STR, Optional),
    "emits" := Field(STR, Required),
    "transform" := Field(STR, Required),
    "description" := Field(STR, Optional)
  ])

  const CRON_SCHEMA := SObject(map[
    "name" := Field(STR, Required),
    "schedule" := Field(STR, Required),
    "function" := Field(STR, Required),
    "description" := Field(STR, Optional)
  ])

  // --- Database (lines 165-182) ---

  const TABLE_COLUMN_SCHEMA := SObject(map[
    "name" := Field(STR, Required),
    "type" := Field(STR, Required),
    "nullable" := Field(SBool, Default(JBool(true))),
    "default" := Field(STR, Optional),
    "references" := Field(STR, Optional)
  ])

  const TABLE_SCHEMA := SObject(map[
    "name" := Field(STR, Required),
    "columns" := Field(SArray(TABLE_COLUMN_SCHEMA), Optional),
    "rls" := Field(SBool, Default(JBool(true)))
  ])

  const DATABASE_SCHEMA := SObject(map[
    "migrations_dir" := Field(STR, Default(JStr("supabase/migrations/"))),
    "tables" := Field(SArray(TABLE_SCHEMA), Required)
  ])

  // --- Observability (lines 188-197) ---

  const LOGGING_SCHEMA := SObject(map[
    "level" := Field(SEnum(["debug", "info", "warn", "error"]), Default(JStr("info"))),
    "format" := Field(SEnum(["json", "pretty"]), Default(JStr("json")))
  ])

  const TRACING_SCHEMA := SObject(map[
    "enabled" := Field(SBool, Default(JBool(true))),
    "trace_id_field" := Field(STR, Default(JStr("trace_id")))
  ])

  const OBSERVABILITY_SCHEMA := SObject(map[
    "logging" := Field(LOGGING_SCHEMA, Optional),
    "tracing" := Field(TRACING_SCHEMA, Optional)
  ])

  // --- Full manifest (lines 203-253) ---

  const PRODUCT_SCHEMA := SObject(map[
    "name" := Field(STR, Required),
    "description" := Field(STR, Required),
    "version" := Field(STR, Required)
  ])

  const ANTHROPIC_SCHEMA := SObject(map[
    "api_key" := Field(STR, Required),
    "default_model" := Field(MODEL, Required)
  ])

  const INNGEST_SCHEMA := SObject(map[
    "app_id" := Field(STR, Required),
    "signing_key" := Field(STR, Required),
    "event_key" := Field(STR, Required)
  ])

  const SUPABASE_SCHEMA := SObject(map[
    "project_ref" := Field(STR, Required),
    "url" := Field(STR, Required),
    "anon_key" := Field(STR, Required),
    "service_key" := Field(STR, Required)
  ])

  const DEPLOYMENT_SCHEMA := SObject(map[
    "platform" := Field(SEnum(["vercel", "railway", "docker"]), Required),
    "region" := Field(STR, Optional)
  ])

  const INFRASTRUCTURE_SCHEMA := SObject(map[
    "inngest" := Field(INNGEST_SCHEMA, Required),
    "supabase" := Field(SUPABASE_SCHEMA, Required),
    "anthropic" := Field(ANTHROPIC_SCHEMA, Required),
    "deployment" := Field(DEPLOYMENT_SCHEMA, Required)
  ])

  const ISOLATION_SCHEMA := SObject(map[
    "database" := Field(SEnum(["rls", "schema", "database"]), Required),
    "storage" := Field(SEnum(["prefix", "bucket"]), Required),
    "workspace" := Field(SEnum(["prefix"]), Required)
  ])

  const TENANCY_SCHEMA := SObject(map[
    "enabled" := Field(SBool, Required),
    "identifier" := Field(STR, Required),
    "isolation" := Field(ISOLATION_SCHEMA, Required)
  ])

  const EVENTS_SCHEMA := SObject(map[
    "namespace" := Field(STR, Required),
    "definitions" := Field(SArray(EVENT_DEFINITION_SCHEMA), Required)
  ])

  const MANIFEST_SCHEMA := SObject(map[
    "product" := Field(PRODUCT_SCHEMA, Required),
    "infrastructure" := Field(INFRASTRUCTURE_SCHEMA, Required),
    "tenancy" := Field(TENANCY_SCHEMA, Optional),
    "state_machine" := Field(STATE_MACHINE_SCHEMA, Required),
    "events" := Field(EVENTS_SCHEMA, Required),
    "agents" := Field(SArray(AGENT_SCHEMA), Required),
    "database" := Field(DATABASE_SCHEMA, Required),
    "crons" := Field(SArray(CRON_SCHEMA), Optional),
    "webhooks" := Field(SArray(WEBHOOK_SCHEMA), Optional),
    "observability" := Field(OBSERVABILITY_SCHEMA, Optional)
  ])

  // ---------------------------------------------------------------------------
  // What parsing fills in
  // ---------------------------------------------------------------------------

  /** An artifact keeps its file and reads as required, stored in Supabase
      storage, unless it says otherwise. */
  lemma ArtifactDefaults(j: Json, fmt: FormatCheck)
    requires Parse(ARTIFACT_SCHEMA, j, fmt).Ok?
    ensures j.JObj? && StrAt(j.props, "file")
    ensures var out := Parse(ARTIFACT_SCHEMA, j, fmt).value.props;
      && Kept(out, j.props, "file")
      && FilledIn(out, j.props, "required", JBool(true))
      && FilledIn(out, j.props, "persist_to", JStr("supabase_storage"))
      && out["persist_to"].JStr? && out["persist_to"].s in ["supabase_storage", "database", "none"]
  {
    KeptOrDefaulted(ARTIFACT_SCHEMA, j, "file", fmt);
    KeptOrDefaulted(ARTIFACT_SCHEMA, j, "required", fmt);
    KeptOrDefaulted(ARTIFACT_SCHEMA, j, "persist_to", fmt);
  }

  /** Exactly which documents are artifacts: an object with a string `file`,
      and a boolean `required` and a known `persist_to` when they are given. */
  lemma ArtifactAccepted(j: Json, fmt: FormatCheck)
    ensures Parse(ARTIFACT_SCHEMA, j, fmt).Ok? <==>
      && j.JObj?
      && StrAt(j.props, "file")
      && ("required" in j.props ==> j.props["required"].JBool?)
      && ("persist_to" in j.props ==> OneOf(j.props["persist_to"], ["supabase_storage", "database", "none"]))
  {
    if j.JObj? && StrAt(j.props, "file")
      && ("required" in j.props ==> j.props["required"].JBool?)
      && ("persist_to" in j.props ==> OneOf(j.props["persist_to"], ["supabase_storage", "database", "none"]))
    {
      forall k | k in ARTIFACT_SCHEMA.shape ensures ParseField(ARTIFACT_SCHEMA, k, j.props, fmt).Ok? {
      }
    }
    if Parse(ARTIFACT_SCHEMA, j, fmt).Ok? {
      KeptOrDefaulted(ARTIFACT_SCHEMA, j, "file", fmt);
      KeptOrDefaulted(ARTIFACT_SCHEMA, j, "required", fmt);
      KeptOrDefaulted(ARTIFACT_SCHEMA, j, "persist_to", fmt);
    }
  }

  /** Every limit the agent leaves out takes its default: 50000 tokens, 50
      tool calls, 300 seconds, 3 retries. */
  lemma LimitsDefaults(j: Json, fmt: FormatCheck)
    requires Parse(AGENT_LIMITS_SCHEMA, j, fmt).Ok?
    ensures j.JObj?
    ensures var out := Parse(AGENT_LIMITS_SCHEMA, j, fmt).value.props;
      && FilledIn(out, j.props, "max_tokens", JNum(50000.0))
      && FilledIn(out, j.props, "max_tool_calls", JNum(50.0))
      && FilledIn(out, j.props, "timeout_seconds", JNum(300.0))
      && FilledIn(out, j.props, "max_retries", JNum(3.0))
      && out.Keys == {"max_tokens", "max_tool_calls", "timeout_seconds", "max_retries"}
  {
    KeptOrDefaulted(AGENT_LIMITS_SCHEMA, j, "max_tokens", fmt);
    KeptOrDefaulted(AGENT_LIMITS_SCHEMA, j, "max_tool_calls", fmt);
    KeptOrDefaulted(AGENT_LIMITS_SCHEMA, j, "timeout_seconds", fmt);
    KeptOrDefaulted(AGENT_LIMITS_SCHEMA, j, "max_retries", fmt);
    ObjectOutputKeys(AGENT_LIMITS_SCHEMA, j, fmt);
  }

  /** An object whose given limits are numbers; any number, since the
      schema sets no bounds. */
  predicate LimitsShaped(j: Json)
  {
    && j.JObj?
    && ("max_tokens" in j.props ==> j.props["max_tokens"].JNum?)
    && ("max_tool_calls" in j.props ==> j.props["max_tool_calls"].JNum?)
    && ("timeout_seconds" in j.props ==> j.props["timeout_seconds"].JNum?)
    && ("max_retries" in j.props ==> j.props["max_retries"].JNum?)
  }

  lemma LimitsShapedIsAccepted(j: Json, fmt: FormatCheck)
    requires LimitsShaped(j)
    ensures Parse(AGENT_LIMITS_SCHEMA, j, fmt).Ok?
  {
    forall k | k in AGENT_LIMITS_SCHEMA.shape ensures ParseField(AGENT_LIMITS_SCHEMA, k, j.props, fmt).Ok? {
    }
  }

  lemma LimitsAcceptedIsShaped(j: Json, fmt: FormatCheck)
    requires Parse(AGENT_LIMITS_SCHEMA, j, fmt).Ok?
    ensures LimitsShaped(j)
  {
    KeptOrDefaulted(AGENT_LIMITS_SCHEMA, j, "max_tokens", fmt);
    KeptOrDefaulted(AGENT_LIMITS_SCHEMA, j, "max_tool_calls", fmt);
    KeptOrDefaulted(AGENT_LIMITS_SCHEMA, j, "timeout_seconds", fmt);
    KeptOrDefaulted(AGENT_LIMITS_SCHEMA, j, "max_retries", fmt);
  }

  /** A limits object is accepted exactly when it is `LimitsShaped`. */
  lemma LimitsAccepted(j: Json, fmt: FormatCheck)
    ensures Parse(AGENT_LIMITS_SCHEMA, j, fmt).Ok? <==> LimitsShaped(j)
  {
    if LimitsShaped(j) {
      LimitsShapedIsAccepted(j, fmt);
    }
    if Parse(AGENT_LIMITS_SCHEMA, j, fmt).Ok? {
      LimitsAcceptedIsShaped(j, fmt);
    }
  }

  /** A workspace is cleaned up on success and snapshotted on failure unless
      it says otherwise; its base directory has no default. */
  lemma WorkspaceDefaults(j: Json, fmt: FormatCheck)
    requires Parse(WORKSPACE_SCHEMA, j, fmt).Ok?
    ensures j.JObj?
    ensures var out := Parse(WORKSPACE_SCHEMA, j, fmt).value.props;
      && Kept(out, j.props, "base")
      && FilledIn(out, j.props, "cleanup", JStr("on_success"))
      && FilledIn(out, j.props, "snapshot_on_failure", JBool(true))
      && OneOf(out["cleanup"], ["on_success", "on_complete", "never"])
      && out["snapshot_on_failure"].JBool?
  {
    KeptOrDefaulted(WORKSPACE_SCHEMA, j, "base", fmt);
    KeptOrDefaulted(WORKSPACE_SCHEMA, j, "cleanup", fmt);
    KeptOrDefaulted(WORKSPACE_SCHEMA, j, "snapshot_on_failure", fmt);
  }

  /** Defaults apply only inside sections that are present: an agent without
      `limits` or `workspace` is returned without them, and one that has
      them gets them back normalised by their own schemas. */
  lemma AgentOptionalSections(j: Json, fmt: FormatCheck)
    requires Parse(AGENT_SCHEMA, j, fmt).Ok?
    ensures j.JObj?
    ensures var out := Parse(AGENT_SCHEMA, j, fmt).value.props;
      && ("limits" in out <==> "limits" in j.props)
      && ("limits" in out ==> Parse(AGENT_LIMITS_SCHEMA, j.props["limits"], fmt) == Ok(out["limits"]))
      && ("workspace" in out <==> "workspace" in j.props)
      && ("workspace" in out ==> Parse(WORKSPACE_SCHEMA, j.props["workspace"], fmt) == Ok(out["workspace"]))
  {
    ParsedField(AGENT_SCHEMA, j, "limits", fmt);
    ParsedField(AGENT_SCHEMA, j, "workspace", fmt);
  }

  /** A column is nullable unless it says otherwise. */
  lemma ColumnDefaults(j: Json, fmt: FormatCheck)
    requires Parse(TABLE_COLUMN_SCHEMA, j, fmt).Ok?
    ensures j.JObj? && StrAt(j.props, "name") && StrAt(j.props, "type")
    ensures var out := Parse(TABLE_COLUMN_SCHEMA, j, fmt).value.props;
      && FilledIn(out, j.props, "nullable", JBool(true))
      && Kept(out, j.props, "default")
      && Kept(out, j.props, "references")
  {
    KeptOrDefaulted(TABLE_COLUMN_SCHEMA, j, "name", fmt);
    KeptOrDefaulted(TABLE_COLUMN_SCHEMA, j, "type", fmt);
    KeptOrDefaulted(TABLE_COLUMN_SCHEMA, j, "nullable", fmt);
    KeptOrDefaulted(TABLE_COLUMN_SCHEMA, j, "default", fmt);
    KeptOrDefaulted(TABLE_COLUMN_SCHEMA, j, "references", fmt);
  }

  /** Row-level security is on unless a table turns it off. */
  lemma TableDefaults(j: Json, fmt: FormatCheck)
    requires Parse(TABLE_SCHEMA, j, fmt).Ok?
    ensures j.JObj? && StrAt(j.props, "name")
    ensures var out := Parse(TABLE_SCHEMA, j, fmt).value.props;
      && FilledIn(out, j.props, "rls", JBool(true))
      && ("columns" in out <==> "columns" in j.props)
  {
    KeptOrDefaulted(TABLE_SCHEMA, j, "name", fmt);
    KeptOrDefaulted(TABLE_SCHEMA, j, "rls", fmt);
    ParsedField(TABLE_SCHEMA, j, "columns", fmt);
  }

  /** Migrations live in `supabase/migrations/` unless the manifest says
      otherwise; the table list is required. */
  lemma DatabaseDefaults(j: Json, fmt: FormatCheck)
    requires Parse(DATABASE_SCHEMA, j, fmt).Ok?
    ensures j.JObj? && "tables" in j.props && j.props["tables"].JArr?
    ensures var out := Parse(DATABASE_SCHEMA, j, fmt).value.props;
      && FilledIn(out, j.props, "migrations_dir", JStr("supabase/migrations/"))
      && "tables" in out && out["tables"].JArr? && |out["tables"].items| == |j.props["tables"].items|
  {
    KeptOrDefaulted(DATABASE_SCHEMA, j, "migrations_dir", fmt);
    ParsedField(DATABASE_SCHEMA, j, "tables", fmt);
  }

  /** Logging is at level info in JSON unless configured otherwise. */
  lemma LoggingDefaults(j: Json, fmt: FormatCheck)
    requires Parse(LOGGING_SCHEMA, j, fmt).Ok?
    ensures j.JObj?
    ensures var out := Parse(LOGGING_SCHEMA, j, fmt).value.props;
      && FilledIn(out, j.props, "level", JStr("info"))
      && FilledIn(out, j.props, "format", JStr("json"))
      && OneOf(out["level"], ["debug", "info", "warn", "error"])
      && OneOf(out["format"], ["json", "pretty"])
  {
    KeptOrDefaulted(LOGGING_SCHEMA, j, "level", fmt);
    KeptOrDefaulted(LOGGING_SCHEMA, j, "format", fmt);
  }

  /** Tracing is on, keyed by `trace_id`, unless configured otherwise. */
  lemma TracingDefaults(j: Json, fmt: FormatCheck)
    requires Parse(TRACING_SCHEMA, j, fmt).Ok?
    ensures j.JObj?
    ensures var out := Parse(TRACING_SCHEMA, j, fmt).value.props;
      && FilledIn(out, j.props, "enabled", JBool(true))
      && FilledIn(out, j.props, "trace_id_field", JStr("trace_id"))
  {
    KeptOrDefaulted(TRACING_SCHEMA, j, "enabled", fmt);
    KeptOrDefaulted(TRACING_SCHEMA, j, "trace_id_field", fmt);
  }

  /** The observability section fills defaults only into the parts it has:
      an absent `logging` or `tracing` stays absent. */
  lemma ObservabilitySections(j: Json, fmt: FormatCheck)
    requires Parse(OBSERVABILITY_SCHEMA, j, fmt).Ok?
    ensures j.JObj?
    ensures var out := Parse(OBSERVABILITY_SCHEMA, j, fmt).value.props;
      && ("logging" in out <==> "logging" in j.props)
      && ("logging" in out ==> Parse(LOGGING_SCHEMA, j.props["logging"], fmt) == Ok(out["logging"]))
      && ("tracing" in out <==> "tracing" in j.props)
      && ("tracing" in out ==> Parse(TRACING_SCHEMA, j.props["tracing"], fmt) == Ok(out["tracing"]))
  {
    ParsedField(OBSERVABILITY_SCHEMA, j, "logging", fmt);
    ParsedField(OBSERVABILITY_SCHEMA, j, "tracing", fmt);
  }

  // ---------------------------------------------------------------------------
  // What the contract and the closed value sets accept
  // ---------------------------------------------------------------------------

  /** `state_in` is one state name or a list of them, the empty list
      included, and is returned unchanged. */
  lemma StateInAccepted(x: Json, fmt: FormatCheck)
    ensures Parse(STATE_IN, x, fmt).Ok? <==> x.JStr? || StrArray(x)
    ensures Parse(STATE_IN, x, fmt).Ok? ==> Parse(STATE_IN, x, fmt).value == x
  {
    assert |STATE_IN.alts| == 2 && STATE_IN.alts[0] == STR && STATE_IN.alts[1] == SArray(STR);
    assert Parse(STATE_IN, x, fmt) == ParseUnion(STATE_IN, 0, x, fmt);
    assert ParseUnion(STATE_IN, 2, x, fmt).Invalid?;
    assert ParseUnion(STATE_IN, 1, x, fmt) == Parse(SArray(STR), x, fmt);
    if x.JStr? {
      assert Parse(STR, x, fmt) == Ok(x);
      assert ParseUnion(STATE_IN, 0, x, fmt) == Ok(x);
    } else {
      assert Parse(STR, x, fmt).Invalid?;
      assert ParseUnion(STATE_IN, 0, x, fmt) == ParseUnion(STATE_IN, 1, x, fmt);
    }
  }

  /** A contract reads from one state or several and writes exactly one;
      its output schema is named by a string. */
  lemma ContractStates(j: Json, fmt: FormatCheck)
    requires Parse(CONTRACT_SCHEMA, j, fmt).Ok?
    ensures j.JObj?
    ensures "state_in" in j.props && (j.props["state_in"].JStr? || StrArray(j.props["state_in"]))
    ensures StrAt(j.props, "state_out") && StrAt(j.props, "output_schema")
    ensures var out := Parse(CONTRACT_SCHEMA, j, fmt).value.props;
      Kept(out, j.props, "state_in") && Kept(out, j.props, "state_out")
  {
    KeptOrDefaulted(CONTRACT_SCHEMA, j, "state_in", fmt);
    KeptOrDefaulted(CONTRACT_SCHEMA, j, "state_out", fmt);
    KeptOrDefaulted(CONTRACT_SCHEMA, j, "output_schema", fmt);
    StateInAccepted(j.props["state_in"], fmt);
  }

  /** An agent and each of its subagents run on haiku, sonnet or opus. */
  lemma AgentModelClosed(j: Json, fmt: FormatCheck)
    requires Parse(AGENT_CONFIG_SCHEMA, j, fmt).Ok?
    ensures j.JObj? && "model" in j.props && OneOf(j.props["model"], ["haiku", "sonnet", "opus"])
    ensures "subagents" in j.props ==>
      var subs := j.props["subagents"];
      subs.JArr? && forall i | 0 <= i < |subs.items| ::
        subs.items[i].JObj? && "model" in subs.items[i].props &&
        OneOf(subs.items[i].props["model"], ["haiku", "sonnet", "opus"])
  {
    KeptOrDefaulted(AGENT_CONFIG_SCHEMA, j, "model", fmt);
    if "subagents" in j.props {
      ParsedField(AGENT_CONFIG_SCHEMA, j, "subagents", fmt);
      var subs := j.props["subagents"];
      forall i | 0 <= i < |subs.items|
        ensures subs.items[i].JObj? && "model" in subs.items[i].props
        ensures OneOf(subs.items[i].props["model"], ["haiku", "sonnet", "opus"])
      {
        assert Parse(SUBAGENT_SCHEMA, subs.items[i], fmt).Ok?;
        KeptOrDefaulted(SUBAGENT_SCHEMA, subs.items[i], "model", fmt);
      }
    }
  }

  /** The default model in the Anthropic settings is one of the three. */
  lemma DefaultModelClosed(j: Json, fmt: FormatCheck)
    requires Parse(INFRASTRUCTURE_SCHEMA, j, fmt).Ok?
    ensures j.JObj? && "anthropic" in j.props
    ensures var a := j.props["anthropic"];
      a.JObj? && "default_model" in a.props && OneOf(a.props["default_model"], ["haiku", "sonnet", "opus"])
  {
    ParsedField(INFRASTRUCTURE_SCHEMA, j, "anthropic", fmt);
    KeptOrDefaulted(ANTHROPIC_SCHEMA, j.props["anthropic"], "default_model", fmt);
  }

  /** An event payload field is typed string, number or boolean. */
  lemma EventFieldTypeClosed(j: Json, fmt: FormatCheck)
    requires Parse(EVENT_FIELD_SCHEMA, j, fmt).Ok?
    ensures j.JObj? && "type" in j.props && OneOf(j.props["type"], ["string", "number", "boolean"])
  {
    KeptOrDefaulted(EVENT_FIELD_SCHEMA, j, "type", fmt);
  }

  /** A webhook authenticates by HMAC, API key, bearer token or not at all,
      and `secret` stays optional whichever is chosen. */
  lemma WebhookAuthClosed(j: Json, fmt: FormatCheck)
    requires Parse(WEBHOOK_SCHEMA, j, fmt).Ok?
    ensures j.JObj? && "auth" in j.props && OneOf(j.props["auth"], ["hmac", "api_key", "bearer", "none"])
    ensures var out := Parse(WEBHOOK_SCHEMA, j, fmt).value.props;
      Kept(out, j.props, "auth") && Kept(out, j.props, "secret")
    ensures Parse(WEBHOOK_SCHEMA, JObj(j.props - {"secret"}), fmt).Ok?
  {
    KeptOrDefaulted(WEBHOOK_SCHEMA, j, "auth", fmt);
    KeptOrDefaulted(WEBHOOK_SCHEMA, j, "secret", fmt);
    ObjectWithout(WEBHOOK_SCHEMA, j, "secret", fmt);
  }

  /** Nothing ties `secret` to the authentication method: an accepted webhook
      stays accepted with any of the four methods and no secret, so an HMAC or
      bearer webhook without a secret passes. */
  lemma SecretIndependent(j: Json, auth: string, fmt: FormatCheck)
    requires Parse(WEBHOOK_SCHEMA, j, fmt).Ok? && auth in ["hmac", "api_key", "bearer", "none"]
    ensures j.JObj?
    ensures var w := JObj(j.props["auth" := JStr(auth)] - {"secret"});
      Parse(WEBHOOK_SCHEMA, w, fmt).Ok? && w.props["auth"] == JStr(auth) && "secret" !in w.props
  {
    ObjectAcceptsReplaced(WEBHOOK_SCHEMA, j, "auth", JStr(auth), fmt);
    ObjectWithout(WEBHOOK_SCHEMA, JObj(j.props["auth" := JStr(auth)]), "secret", fmt);
  }

  // ---------------------------------------------------------------------------
  // Normalisation is idempotent
  // ---------------------------------------------------------------------------

  // Every section is well formed: the one union, `state_in`, has a string
  // alternative and an array alternative, which accept different runtime types.
  // One lemma per object keeps each proof small.

  lemma StateInWellFormed() ensures WellFormed(STATE_IN)
  {
    assert Separated(STR, SArray(STR));
  }

  lemma StateDefinitionWellFormed() ensures WellFormed(STATE_DEFINITION_SCHEMA)
  {
    ObjectWellFormed(STATE_DEFINITION_SCHEMA);
  }

  lemma StateMachineWellFormed() ensures WellFormed(STATE_MACHINE_SCHEMA)
  {
    StateDefinitionWellFormed(); ObjectWellFormed(STATE_MACHINE_SCHEMA);
  }

  lemma EventFieldWellFormed() ensures WellFormed(EVENT_FIELD_SCHEMA)
  {
    ObjectWellFormed(EVENT_FIELD_SCHEMA);
  }

  lemma EventDefinitionWellFormed() ensures WellFormed(EVENT_DEFINITION_SCHEMA)
  {
    EventFieldWellFormed(); ObjectWellFormed(EVENT_DEFINITION_SCHEMA);
  }

  lemma EventsWellFormed() ensures WellFormed(EVENTS_SCHEMA)
  {
    EventDefinitionWellFormed(); ObjectWellFormed(EVENTS_SCHEMA);
  }

  lemma DbSourceWellFormed() ensures WellFormed(DB_SOURCE_SCHEMA)
  {
    ObjectWellFormed(DB_SOURCE_SCHEMA);
  }

  lemma StaticSourceWellFormed() ensures WellFormed(STATIC_SOURCE_SCHEMA)
  {
    ObjectWellFormed(STATIC_SOURCE_SCHEMA);
  }

  lemma ArtifactWellFormed() ensures WellFormed(ARTIFACT_SCHEMA)
  {
    ObjectWellFormed(ARTIFACT_SCHEMA);
  }

  lemma ContextInWellFormed() ensures WellFormed(CONTEXT_IN_SCHEMA)
  {
    DbSourceWellFormed(); StaticSourceWellFormed(); ObjectWellFormed(CONTEXT_IN_SCHEMA);
  }

  lemma ContextOutWellFormed() ensures WellFormed(CONTEXT_OUT_SCHEMA)
  {
    ArtifactWellFormed(); ObjectWellFormed(CONTEXT_OUT_SCHEMA);
  }

  lemma ContractWellFormed() ensures WellFormed(CONTRACT_SCHEMA)
  {
    StateInWellFormed(); ContextInWellFormed(); ContextOutWellFormed(); ObjectWellFormed(CONTRACT_SCHEMA);
  }

  lemma SubagentWellFormed() ensures WellFormed(SUBAGENT_SCHEMA)
  {
    ObjectWellFormed(SUBAGENT_SCHEMA);
  }

  lemma McpServerWellFormed() ensures WellFormed(MCP_SERVER_SCHEMA)
  {
    ObjectWellFormed(MCP_SERVER_SCHEMA);
  }

  lemma AgentConfigWellFormed() ensures WellFormed(AGENT_CONFIG_SCHEMA)
  {
    SubagentWellFormed(); McpServerWellFormed(); ObjectWellFormed(AGENT_CONFIG_SCHEMA);
  }

  lemma AgentLimitsWellFormed() ensures WellFormed(AGENT_LIMITS_SCHEMA)
  {
    ObjectWellFormed(AGENT_LIMITS_SCHEMA);
  }

  lemma WorkspaceWellFormed() ensures WellFormed(WORKSPACE_SCHEMA)
  {
    ObjectWellFormed(WORKSPACE_SCHEMA);
  }

  lemma TriggerWellFormed() ensures WellFormed(TRIGGER_SCHEMA)
  {
    ObjectWellFormed(TRIGGER_SCHEMA);
  }

  lemma EmitWellFormed() ensures WellFormed(EMIT_SCHEMA)
  {
    ObjectWellFormed(EMIT_SCHEMA);
  }

  lemma AgentWellFormed() ensures WellFormed(AGENT_SCHEMA)
  {
    TriggerWellFormed(); EmitWellFormed(); ContractWellFormed();
    AgentConfigWellFormed(); AgentLimitsWellFormed(); WorkspaceWellFormed();
    var m: map<string, Field> := map[];
    FieldsAdd(m, "name", Field(STR, Required)); m := m["name" := Field(STR, Required)];
    FieldsAdd(m, "description", Field(STR, Required)); m := m["description" := Field(STR, Required)];
    FieldsAdd(m, "triggers", Field(SArray(TRIGGER_SCHEMA), Required)); m := m["triggers" := Field(SArray(TRIGGER_SCHEMA), Required)];
    FieldsAdd(m, "emits", Field(SArray(EMIT_SCHEMA), Required)); m := m["emits" := Field(SArray(EMIT_SCHEMA), Required)];
    FieldsAdd(m, "contract", Field(CONTRACT_SCHEMA, Required)); m := m["contract" := Field(CONTRACT_SCHEMA, Required)];
    FieldsAdd(m, "config", Field(AGENT_CONFIG_SCHEMA, Required)); m := m["config" := Field(AGENT_CONFIG_SCHEMA, Required)];
    FieldsAdd(m, "limits", Field(AGENT_LIMITS_SCHEMA, Optional)); m := m["limits" := Field(AGENT_LIMITS_SCHEMA, Optional)];
    FieldsAdd(m, "workspace", Field(WORKSPACE_SCHEMA, Optional)); m := m["workspace" := Field(WORKSPACE_SCHEMA, Optional)];
    assert m == AGENT_SCHEMA.shape;
    ObjectWellFormed(AGENT_SCHEMA);
  }

  lemma WebhookWellFormed() ensures WellFormed(WEBHOOK_SCHEMA)
  {
    ObjectWellFormed(WEBHOOK_SCHEMA);
  }

  lemma CronWellFormed() ensures WellFormed(CRON_SCHEMA)
  {
    ObjectWellFormed(CRON_SCHEMA);
  }

  lemma TableColumnWellFormed() ensures WellFormed(TABLE_COLUMN_SCHEMA)
  {
    ObjectWellFormed(TABLE_COLUMN_SCHEMA);
  }

  lemma TableWellFormed() ensures WellFormed(TABLE_SCHEMA)
  {
    TableColumnWellFormed(); ObjectWellFormed(TABLE_SCHEMA);
  }

  lemma DatabaseWellFormed() ensures WellFormed(DATABASE_SCHEMA)
  {
    TableWellFormed(); ObjectWellFormed(DATABASE_SCHEMA);
  }

  lemma LoggingWellFormed() ensures WellFormed(LOGGING_SCHEMA)
  {
    ObjectWellFormed(LOGGING_SCHEMA);
  }

  lemma TracingWellFormed() ensures WellFormed(TRACING_SCHEMA)
  {
    ObjectWellFormed(TRACING_SCHEMA);
  }

  lemma ObservabilityWellFormed() ensures WellFormed(OBSERVABILITY_SCHEMA)
  {
    LoggingWellFormed(); TracingWellFormed(); ObjectWellFormed(OBSERVABILITY_SCHEMA);
  }

  lemma ProductWellFormed() ensures WellFormed(PRODUCT_SCHEMA)
  {
    ObjectWellFormed(PRODUCT_SCHEMA);
  }

  lemma AnthropicWellFormed() ensures WellFormed(ANTHROPIC_SCHEMA)
  {
    ObjectWellFormed(ANTHROPIC_SCHEMA);
  }

  lemma InngestWellFormed() ensures WellFormed(INNGEST_SCHEMA)
  {
    ObjectWellFormed(INNGEST_SCHEMA);
  }

  lemma SupabaseWellFormed() ensures WellFormed(SUPABASE_SCHEMA)
  {
    ObjectWellFormed(SUPABASE_SCHEMA);
  }

  lemma DeploymentWellFormed() ensures WellFormed(DEPLOYMENT_SCHEMA)
  {
    ObjectWellFormed(DEPLOYMENT_SCHEMA);
  }

  lemma InfrastructureWellFormed() ensures WellFormed(INFRASTRUCTURE_SCHEMA)
  {
    InngestWellFormed(); SupabaseWellFormed(); AnthropicWellFormed(); DeploymentWellFormed(); ObjectWellFormed(INFRASTRUCTURE_SCHEMA);
  }

  lemma IsolationWellFormed() ensures WellFormed(ISOLATION_SCHEMA)
  {
    ObjectWellFormed(ISOLATION_SCHEMA);
  }

  lemma TenancyWellFormed() ensures WellFormed(TENANCY_SCHEMA)
  {
    IsolationWellFormed(); ObjectWellFormed(TENANCY_SCHEMA);
  }

  // The manifest's fields, added to `FieldsWellFormed` five at a time to
  // keep each proof small.

  lemma ManifestHeadWellFormed(m0: map<string, Field>)
    requires FieldsWellFormed(m0)
    ensures FieldsWellFormed(m0["product" := Field(PRODUCT_SCHEMA, Required)]["infrastructure" := Field(INFRASTRUCTURE_SCHEMA, Required)]["tenancy" := Field(TENANCY_SCHEMA, Optional)]["state_machine" := Field(STATE_MACHINE_SCHEMA, Required)]["events" := Field(EVENTS_SCHEMA, Required)])
  {
    ProductWellFormed(); InfrastructureWellFormed(); TenancyWellFormed(); StateMachineWellFormed(); EventsWellFormed();
    var m := m0;
    FieldsAdd(m, "product", Field(PRODUCT_SCHEMA, Required)); m := m["product" := Field(PRODUCT_SCHEMA, Required)];
    FieldsAdd(m, "infrastructure", Field(INFRASTRUCTURE_SCHEMA, Required)); m := m["infrastructure" := Field(INFRASTRUCTURE_SCHEMA, Required)];
    FieldsAdd(m, "tenancy", Field(TENANCY_SCHEMA, Optional)); m := m["tenancy" := Field(TENANCY_SCHEMA, Optional)];
    FieldsAdd(m, "state_machine", Field(STATE_MACHINE_SCHEMA, Required)); m := m["state_machine" := Field(STATE_MACHINE_SCHEMA, Required)];
    FieldsAdd(m, "events", Field(EVENTS_SCHEMA, Required)); m := m["events" := Field(EVENTS_SCHEMA, Required)];
  }

  lemma ManifestTailWellFormed(m0: map<string, Field>)
    requires FieldsWellFormed(m0)
    ensures FieldsWellFormed(m0["agents" := Field(SArray(AGENT_SCHEMA), Required)]["database" := Field(DATABASE_SCHEMA, Required)]["crons" := Field(SArray(CRON_SCHEMA), Optional)]["webhooks" := Field(SArray(WEBHOOK_SCHEMA), Optional)]["observability" := Field(OBSERVABILITY_SCHEMA, Optional)])
  {
    AgentWellFormed(); DatabaseWellFormed(); CronWellFormed(); WebhookWellFormed(); ObservabilityWellFormed();
    var m := m0;
    FieldsAdd(m, "agents", Field(SArray(AGENT_SCHEMA), Required)); m := m["agents" := Field(SArray(AGENT_SCHEMA), Required)];
    FieldsAdd(m, "database", Field(DATABASE_SCHEMA, Required)); m := m["database" := Field(DATABASE_SCHEMA, Required)];
    FieldsAdd(m, "crons", Field(SArray(CRON_SCHEMA), Optional)); m := m["crons" := Field(SArray(CRON_SCHEMA), Optional)];
    FieldsAdd(m, "webhooks", Field(SArray(WEBHOOK_SCHEMA), Optional)); m := m["webhooks" := Field(SArray(WEBHOOK_SCHEMA), Optional)];
    FieldsAdd(m, "observability", Field(OBSERVABILITY_SCHEMA, Optional)); m := m["observability" := Field(OBSERVABILITY_SCHEMA, Optional)];
  }

  lemma ManifestWellFormed() ensures WellFormed(MANIFEST_SCHEMA)
  {
    var m: map<string, Field> := map[];
    ManifestHeadWellFormed(m);
    m := m["product" := Field(PRODUCT_SCHEMA, Required)]["infrastructure" := Field(INFRASTRUCTURE_SCHEMA, Required)]["tenancy" := Field(TENANCY_SCHEMA, Optional)]["state_machine" := Field(STATE_MACHINE_SCHEMA, Required)]["events" := Field(EVENTS_SCHEMA, Required)];
    ManifestTailWellFormed(m);
    m := m["agents" := Field(SArray(AGENT_SCHEMA), Required)]["database" := Field(DATABASE_SCHEMA, Required)]["crons" := Field(SArray(CRON_SCHEMA), Optional)]["webhooks" := Field(SArray(WEBHOOK_SCHEMA), Optional)]["observability" := Field(OBSERVABILITY_SCHEMA, Optional)];
    assert m == MANIFEST_SCHEMA.shape;
    ObjectWellFormed(MANIFEST_SCHEMA);
  }

  /** Normalising a manifest twice gives what normalising it once gave: every
      default is filled in by the first pass and the output passes again. */
  lemma ManifestNormaliseIdempotent(j: Json, fmt: FormatCheck)
    requires Parse(MANIFEST_SCHEMA, j, fmt).Ok?
    ensures Parse(MANIFEST_SCHEMA, Parse(MANIFEST_SCHEMA, j, fmt).value, fmt) == Parse(MANIFEST_SCHEMA, j, fmt)
  {
    ManifestWellFormed();
    ParseIdempotent(MANIFEST_SCHEMA, j, fmt);
  }
}
