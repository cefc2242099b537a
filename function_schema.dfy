/** The minimal Inngest function format
    (plans/zzz-complete/nonagentic/examples/function-schema.ts): four trigger
    shapes tried in order by a union, the function record that carries a
    declared `pattern` beside its trigger, the extended webhook record, and
    `detectPattern`, which classifies a trigger by the keys it has. */
module FunctionSchema {
  import opened Json
  import opened Zod

  const STR := SString([])

  // --- Trigger shapes (lines 8-32) ---

  const SIMPLE_TRIGGER_SCHEMA := SObject(map["event" := Field(STR, Required)])

  const FAN_IN_TRIGGER_SCHEMA := SObject(map[
    "primary" := Field(STR, Required),
    "wait_for" := Field(SArray(STR), Required),
    "correlation_key" := Field(STR, Required),
    "timeout" := Field(STR, Optional)
  ])

  const CRON_TRIGGER_SCHEMA := SObject(map[
    "cron" := Field(STR, Required),
    "schedule" := Field(STR, Required)
  ])

  /** One entry of `routes`: the event to emit, and optionally a follow-up. */
  const ROUTE_SCHEMA := SObject(map[
    "emit" := Field(STR, Required),
    "then" := Field(STR, Optional)
  ])

  const ROUTING_TRIGGER_SCHEMA := SObject(map[
    "event" := Field(STR, Required),
    "route_on" := Field(STR, Required),
    "routes" := Field(SRecord(ROUTE_SCHEMA), Required),
    "default_route" := Field(STR, Optional)
  ])

  /** `FunctionTriggerSchema` as written (lines 34-39): Simple is tried first. */
  const FUNCTION_TRIGGER_SCHEMA := SUnion([
    SIMPLE_TRIGGER_SCHEMA, FAN_IN_TRIGGER_SCHEMA, CRON_TRIGGER_SCHEMA, ROUTING_TRIGGER_SCHEMA
  ])

  /** The same four shapes, most specific first: each shape is tried before
      any shape whose keys are a subset of its own. */
  const ORDERED_TRIGGER_SCHEMA := SUnion([
    ROUTING_TRIGGER_SCHEMA, FAN_IN_TRIGGER_SCHEMA, CRON_TRIGGER_SCHEMA, SIMPLE_TRIGGER_SCHEMA
  ])

  // --- Function record (lines 45-57) ---

  const PATTERNS := ["simple", "fan-in", "cron", "routing"]

  /** A function record over a given trigger union. */
  function FunctionSchemaOver(trigger: Schema): (s: Schema)
    ensures s.SObject? && "trigger" in s.shape && s.shape["trigger"] == Field(trigger, Required)
  {
    SObject(map[
      "name" := Field(STR, Required),
      "description" := Field(STR, Required),
      "pattern" := Field(SEnum(PATTERNS), Required),
      "trigger" := Field(trigger, Required),
      "emits" := Field(SArray(STR), Optional),
      "actions" := Field(SArray(STR), Optional),
      "integrations" := Field(SArray(STR), Optional),
      "context" := Field(STR, Optional),
      "open_questions" := Field(SArray(STR), Optional)
    ])
  }

  /** `FunctionSchema` as written (lines 45-55), over the simple-first union. */
  const FUNCTION_SCHEMA := FunctionSchemaOver(FUNCTION_TRIGGER_SCHEMA)

  /** `FunctionsArraySchema` (line 57). */
  const FUNCTIONS_ARRAY_SCHEMA := SArray(FUNCTION_SCHEMA)

  /** The function record with its triggers tried most specific first. */
  const ORDERED_FUNCTION_SCHEMA := FunctionSchemaOver(ORDERED_TRIGGER_SCHEMA)

  // --- Extended webhook (lines 64-77) ---

  const WEBHOOK_HANDLER_SCHEMA := SObject(map[
    "validation" := Field(SArray(STR), Optional),
    "transform" := Field(SArray(STR), Optional)
  ])

  const WEBHOOK_AUTH := ["hmac", "api_key", "bearer", "none"]

  const WEBHOOK_SCHEMA := SObject(map[
    "name" := Field(STR, Required),
    "path" := Field(STR, Required),
    "auth" := Field(SEnum(WEBHOOK_AUTH), Required),
    "secret" := Field(STR, Optional),
    "emits" := Field(STR, Required),
    "handler" := Field(WEBHOOK_HANDLER_SCHEMA, Optional),
    "description" := Field(STR, Optional)
  ])

  // ---------------------------------------------------------------------------
  // detectPattern (lines 83-88)
  // ---------------------------------------------------------------------------

  /** The pattern a trigger's keys suggest: `wait_for` wins over `cron`, which
      wins over `route_on`; a trigger with none of them is simple. */
  function DetectPattern(trigger: map<string, Json>): (p: string)
    ensures p in PATTERNS
  {
    if "wait_for" in trigger then "fan-in"
    else if "cron" in trigger then "cron"
    else if "route_on" in trigger then "routing"
    else "simple"
  }

  /** Which keys decide each answer, and in what order: `wait_for`, then
      `cron`, then `route_on`. */
  lemma DetectPatternPrecedence(trigger: map<string, Json>)
    ensures DetectPattern(trigger) == "fan-in" <==> "wait_for" in trigger
    ensures DetectPattern(trigger) == "cron" <==> "cron" in trigger && "wait_for" !in trigger
    ensures DetectPattern(trigger) == "routing" <==>
      "route_on" in trigger && "cron" !in trigger && "wait_for" !in trigger
    ensures DetectPattern(trigger) == "simple" <==>
      "wait_for" !in trigger && "cron" !in trigger && "route_on" !in trigger
  {
  }

  /** Only the three deciding keys matter: adding or removing any other key
      leaves the answer unchanged. */
  lemma DetectPatternLocal(t: map<string, Json>, u: map<string, Json>)
    requires forall k | k in {"wait_for", "cron", "route_on"} :: (k in t <==> k in u)
    ensures DetectPattern(t) == DetectPattern(u)
  {
    assert "wait_for" in t <==> "wait_for" in u;
    assert "cron" in t <==> "cron" in u;
    assert "route_on" in t <==> "route_on" in u;
  }

  // ---------------------------------------------------------------------------
  // The trigger shapes
  // ---------------------------------------------------------------------------

  /** A fan-in trigger names its primary event, the events it waits for and
      the key that correlates them; a timeout is optional. */
  predicate FanInShaped(j: Json)
  {
    && j.JObj?
    && StrAt(j.props, "primary")
    && "wait_for" in j.props && StrArray(j.props["wait_for"])
    && StrAt(j.props, "correlation_key")
    && ("timeout" in j.props ==> j.props["timeout"].JStr?)
  }

  lemma FanInShapedIsAccepted(j: Json, fmt: FormatCheck)
    requires FanInShaped(j)
    ensures Parse(FAN_IN_TRIGGER_SCHEMA, j, fmt).Ok?
  {
    StringArrayAccepted(j.props["wait_for"], fmt);
    forall k | k in FAN_IN_TRIGGER_SCHEMA.shape ensures ParseField(FAN_IN_TRIGGER_SCHEMA, k, j.props, fmt).Ok? {
    }
  }

  lemma FanInAcceptedIsShaped(j: Json, fmt: FormatCheck)
    requires Parse(FAN_IN_TRIGGER_SCHEMA, j, fmt).Ok?
    ensures FanInShaped(j)
  {
    KeptOrDefaulted(FAN_IN_TRIGGER_SCHEMA, j, "primary", fmt);
    KeptOrDefaulted(FAN_IN_TRIGGER_SCHEMA, j, "wait_for", fmt);
    KeptOrDefaulted(FAN_IN_TRIGGER_SCHEMA, j, "correlation_key", fmt);
    KeptOrDefaulted(FAN_IN_TRIGGER_SCHEMA, j, "timeout", fmt);
    StringArrayAccepted(j.props["wait_for"], fmt);
  }

  lemma FanInAccepted(j: Json, fmt: FormatCheck)
    ensures Parse(FAN_IN_TRIGGER_SCHEMA, j, fmt).Ok? <==>
      && j.JObj?
      && StrAt(j.props, "primary")
      && "wait_for" in j.props && StrArray(j.props["wait_for"])
      && StrAt(j.props, "correlation_key")
      && ("timeout" in j.props ==> j.props["timeout"].JStr?)
  {
    if FanInShaped(j) {
      FanInShapedIsAccepted(j, fmt);
    }
    if Parse(FAN_IN_TRIGGER_SCHEMA, j, fmt).Ok? {
      FanInAcceptedIsShaped(j, fmt);
    }
  }

  /** A route names the event it emits; a follow-up event is optional. */
  lemma RouteAccepted(j: Json, fmt: FormatCheck)
    ensures Parse(ROUTE_SCHEMA, j, fmt).Ok? <==>
      && j.JObj?
      && StrAt(j.props, "emit")
      && ("then" in j.props ==> j.props["then"].JStr?)
    ensures Parse(ROUTE_SCHEMA, j, fmt).Ok? ==>
      var out := Parse(ROUTE_SCHEMA, j, fmt).value.props;
      Kept(out, j.props, "emit") && Kept(out, j.props, "then") && out.Keys <= {"emit", "then"}
  {
    if j.JObj? && StrAt(j.props, "emit") && ("then" in j.props ==> j.props["then"].JStr?) {
      forall k | k in ROUTE_SCHEMA.shape ensures ParseField(ROUTE_SCHEMA, k, j.props, fmt).Ok? {
      }
    }
    if Parse(ROUTE_SCHEMA, j, fmt).Ok? {
      KeptOrDefaulted(ROUTE_SCHEMA, j, "emit", fmt);
      KeptOrDefaulted(ROUTE_SCHEMA, j, "then", fmt);
      ObjectOutputKeys(ROUTE_SCHEMA, j, fmt);
    }
  }

  /** Every routing trigger also has the simple shape: it carries a string
      `event`, and the simple schema reduces it to that one key. */
  lemma RoutingAlsoSimple(j: Json, fmt: FormatCheck)
    requires Parse(ROUTING_TRIGGER_SCHEMA, j, fmt).Ok?
    ensures j.JObj? && StrAt(j.props, "event")
    ensures Parse(SIMPLE_TRIGGER_SCHEMA, j, fmt) == Ok(JObj(map["event" := j.props["event"]]))
  {
    KeptOrDefaulted(ROUTING_TRIGGER_SCHEMA, j, "event", fmt);
    assert ParseField(SIMPLE_TRIGGER_SCHEMA, "event", j.props, fmt) == Ok(Some(j.props["event"]));
    assert Parse(SIMPLE_TRIGGER_SCHEMA, j, fmt).value.props == map["event" := j.props["event"]];
  }

  // ---------------------------------------------------------------------------
  // The union order
  // ---------------------------------------------------------------------------

  /** Each shape's own output is classified as that shape: the keys it
      keeps decide `DetectPattern`. */
  lemma RoutingPattern(j: Json, fmt: FormatCheck)
    requires Parse(ROUTING_TRIGGER_SCHEMA, j, fmt).Ok?
    ensures DetectPattern(Parse(ROUTING_TRIGGER_SCHEMA, j, fmt).value.props) == "routing"
  {
    ParsedField(ROUTING_TRIGGER_SCHEMA, j, "route_on", fmt);
    ObjectOutputKeys(ROUTING_TRIGGER_SCHEMA, j, fmt);
  }

  lemma FanInPattern(j: Json, fmt: FormatCheck)
    requires Parse(FAN_IN_TRIGGER_SCHEMA, j, fmt).Ok?
    ensures DetectPattern(Parse(FAN_IN_TRIGGER_SCHEMA, j, fmt).value.props) == "fan-in"
  {
    ParsedField(FAN_IN_TRIGGER_SCHEMA, j, "wait_for", fmt);
  }

  lemma CronPattern(j: Json, fmt: FormatCheck)
    requires Parse(CRON_TRIGGER_SCHEMA, j, fmt).Ok?
    ensures DetectPattern(Parse(CRON_TRIGGER_SCHEMA, j, fmt).value.props) == "cron"
  {
    ParsedField(CRON_TRIGGER_SCHEMA, j, "cron", fmt);
    ObjectOutputKeys(CRON_TRIGGER_SCHEMA, j, fmt);
  }

  lemma SimplePattern(j: Json, fmt: FormatCheck)
    requires Parse(SIMPLE_TRIGGER_SCHEMA, j, fmt).Ok?
    ensures DetectPattern(Parse(SIMPLE_TRIGGER_SCHEMA, j, fmt).value.props) == "simple"
  {
    ObjectOutputKeys(SIMPLE_TRIGGER_SCHEMA, j, fmt);
  }

  /** As written, a trigger that has been through `FunctionTriggerSchema` is
      never classified as routing: a routing trigger is taken by the simple
      shape first, which strips `route_on`. */
  lemma AsWrittenNeverRouting(j: Json, fmt: FormatCheck)
    requires Parse(FUNCTION_TRIGGER_SCHEMA, j, fmt).Ok?
    ensures Parse(FUNCTION_TRIGGER_SCHEMA, j, fmt).value.JObj?
    ensures DetectPattern(Parse(FUNCTION_TRIGGER_SCHEMA, j, fmt).value.props) != "routing"
  {
    var s := FUNCTION_TRIGGER_SCHEMA;
    var k := UnionChoice(s, 0, j, fmt);
    if k == 0 {
      SimplePattern(j, fmt);
    } else if k == 1 {
      FanInPattern(j, fmt);
    } else if k == 2 {
      CronPattern(j, fmt);
    } else {
      RoutingAlsoSimple(j, fmt);
      assert false;
    }
  }

  /** A concrete routing trigger: on its own keys it is classified as
      routing, but after `FunctionTriggerSchema` it is a simple trigger. */
  lemma AsWrittenRoutingLost(fmt: FormatCheck)
    ensures var t := JObj(map[
        "event" := JStr("lead.replied"), "route_on" := JStr("classification"), "routes" := JObj(map[])]);
      && DetectPattern(t.props) == "routing"
      && Parse(FUNCTION_TRIGGER_SCHEMA, t, fmt) == Ok(JObj(map["event" := JStr("lead.replied")]))
      && DetectPattern(map["event" := JStr("lead.replied")]) == "simple"
  {
    var t := JObj(map[
        "event" := JStr("lead.replied"), "route_on" := JStr("classification"), "routes" := JObj(map[])]);
    assert ParseField(SIMPLE_TRIGGER_SCHEMA, "event", t.props, fmt) == Ok(Some(JStr("lead.replied")));
    assert Parse(SIMPLE_TRIGGER_SCHEMA, t, fmt).value.props == map["event" := JStr("lead.replied")];
  }

  // Each trigger shape on its own is well formed.

  lemma RoutingWellFormed() ensures WellFormed(ROUTING_TRIGGER_SCHEMA)
  {
    ObjectWellFormed(ROUTE_SCHEMA);
    ObjectWellFormed(ROUTING_TRIGGER_SCHEMA);
  }

  lemma FanInWellFormed() ensures WellFormed(FAN_IN_TRIGGER_SCHEMA)
  {
    ObjectWellFormed(FAN_IN_TRIGGER_SCHEMA);
  }

  lemma CronWellFormed() ensures WellFormed(CRON_TRIGGER_SCHEMA)
  {
    ObjectWellFormed(CRON_TRIGGER_SCHEMA);
  }

  lemma SimpleWellFormed() ensures WellFormed(SIMPLE_TRIGGER_SCHEMA)
  {
    ObjectWellFormed(SIMPLE_TRIGGER_SCHEMA);
  }

  /** Tried most specific first, the four shapes never shadow one another:
      each requires a key that every later one lacks. */
  lemma OrderedTriggerWellFormed()
    ensures WellFormed(ORDERED_TRIGGER_SCHEMA)
  {
    var alts := ORDERED_TRIGGER_SCHEMA.alts;
    assert alts == [ROUTING_TRIGGER_SCHEMA, FAN_IN_TRIGGER_SCHEMA, CRON_TRIGGER_SCHEMA, SIMPLE_TRIGGER_SCHEMA];
    RoutingWellFormed(); FanInWellFormed(); CronWellFormed(); SimpleWellFormed();
    forall a, b | 0 <= a < b < |alts| ensures Separated(alts[a], alts[b]) {
      if a == 0 {
        RequiredKeySeparates(alts[a], alts[b], if b == 3 then "route_on" else "event");
      } else if a == 1 {
        RequiredKeySeparates(alts[a], alts[b], "primary");
      } else {
        RequiredKeySeparates(alts[a], alts[b], "cron");
      }
    }
    UnionWellFormed(ORDERED_TRIGGER_SCHEMA);
  }

  /** With the shapes tried most specific first, the pattern read off the
      normalised trigger is the shape that accepted it: routing exactly when
      the routing shape accepts the document, and so on down the order. */
  lemma OrderedTriggerPattern(j: Json, fmt: FormatCheck)
    requires Parse(ORDERED_TRIGGER_SCHEMA, j, fmt).Ok?
    ensures Parse(ORDERED_TRIGGER_SCHEMA, j, fmt).value.JObj?
    ensures var p := DetectPattern(Parse(ORDERED_TRIGGER_SCHEMA, j, fmt).value.props);
      && (p == "routing" <==> Parse(ROUTING_TRIGGER_SCHEMA, j, fmt).Ok?)
      && (p == "fan-in" <==>
            Parse(ROUTING_TRIGGER_SCHEMA, j, fmt).Invalid? && Parse(FAN_IN_TRIGGER_SCHEMA, j, fmt).Ok?)
      && (p == "cron" <==>
            Parse(ROUTING_TRIGGER_SCHEMA, j, fmt).Invalid? && Parse(FAN_IN_TRIGGER_SCHEMA, j, fmt).Invalid? &&
            Parse(CRON_TRIGGER_SCHEMA, j, fmt).Ok?)
  {
    var alts := ORDERED_TRIGGER_SCHEMA.alts;
    assert alts == [ROUTING_TRIGGER_SCHEMA, FAN_IN_TRIGGER_SCHEMA, CRON_TRIGGER_SCHEMA, SIMPLE_TRIGGER_SCHEMA];
    var k := UnionChoice(ORDERED_TRIGGER_SCHEMA, 0, j, fmt);
    if k == 0 {
      RoutingPattern(j, fmt);
    } else if k == 1 {
      assert Parse(alts[0], j, fmt).Invalid?;
      FanInPattern(j, fmt);
    } else if k == 2 {
      assert Parse(alts[0], j, fmt).Invalid? && Parse(alts[1], j, fmt).Invalid?;
      CronPattern(j, fmt);
    } else {
      assert Parse(alts[0], j, fmt).Invalid? && Parse(alts[1], j, fmt).Invalid? && Parse(alts[2], j, fmt).Invalid?;
      SimplePattern(j, fmt);
    }
  }

  // ---------------------------------------------------------------------------
  // The function record
  // ---------------------------------------------------------------------------

  /** The declared `pattern` is checked only against the closed list, never
      against the trigger: an accepted record stays accepted whichever of the
      four patterns it declares, whatever union its trigger goes through. */
  lemma PatternIndependent(trigger: Schema, j: Json, p: string, fmt: FormatCheck)
    requires Parse(FunctionSchemaOver(trigger), j, fmt).Ok? && p in PATTERNS
    ensures j.JObj? && Parse(FunctionSchemaOver(trigger), JObj(j.props["pattern" := JStr(p)]), fmt).Ok?
  {
    var s := FunctionSchemaOver(trigger);
    var m := j.props["pattern" := JStr(p)];
    forall k | k in s.shape ensures ParseField(s, k, m, fmt).Ok? {
      assert ParseField(s, k, j.props, fmt).Ok?;
    }
  }

  /** Concretely: a record may declare "cron" over a trigger that
      `DetectPattern` reads as simple. */
  lemma CronOverSimpleTrigger(j: Json, fmt: FormatCheck)
    requires Parse(FUNCTION_SCHEMA, j, fmt).Ok?
    requires j.JObj? && "trigger" in j.props && j.props["trigger"] == JObj(map["event" := JStr("lead.created")])
    ensures Parse(FUNCTION_SCHEMA, JObj(j.props["pattern" := JStr("cron")]), fmt).Ok?
    ensures DetectPattern(j.props["trigger"].props) == "simple"
  {
    PatternIndependent(FUNCTION_TRIGGER_SCHEMA, j, "cron", fmt);
  }

  /** An accepted record declares one of the four patterns and has a trigger
      of one of the four shapes. */
  lemma FunctionAccepted(j: Json, fmt: FormatCheck)
    requires Parse(FUNCTION_SCHEMA, j, fmt).Ok?
    ensures j.JObj? && "pattern" in j.props && OneOf(j.props["pattern"], PATTERNS)
    ensures "trigger" in j.props
    ensures var t := j.props["trigger"];
      || Parse(SIMPLE_TRIGGER_SCHEMA, t, fmt).Ok? || Parse(FAN_IN_TRIGGER_SCHEMA, t, fmt).Ok?
      || Parse(CRON_TRIGGER_SCHEMA, t, fmt).Ok? || Parse(ROUTING_TRIGGER_SCHEMA, t, fmt).Ok?
  {
    KeptOrDefaulted(FUNCTION_SCHEMA, j, "pattern", fmt);
    ParsedField(FUNCTION_SCHEMA, j, "trigger", fmt);
    var k := UnionChoice(FUNCTION_TRIGGER_SCHEMA, 0, j.props["trigger"], fmt);
  }

  /** As written, a parsed function record's trigger is never classified as
      routing, whatever the document's trigger held. */
  lemma FunctionNeverRouting(j: Json, fmt: FormatCheck)
    requires Parse(FUNCTION_SCHEMA, j, fmt).Ok?
    ensures var out := Parse(FUNCTION_SCHEMA, j, fmt).value.props;
      "trigger" in out && out["trigger"].JObj? && DetectPattern(out["trigger"].props) != "routing"
  {
    ParsedField(FUNCTION_SCHEMA, j, "trigger", fmt);
    AsWrittenNeverRouting(j.props["trigger"], fmt);
  }

  /** With the shapes tried most specific first, a parsed record's trigger is
      classified as routing exactly when the document's trigger has the
      routing shape. */
  lemma OrderedFunctionRouting(j: Json, fmt: FormatCheck)
    requires Parse(ORDERED_FUNCTION_SCHEMA, j, fmt).Ok?
    ensures j.JObj? && "trigger" in j.props
    ensures var out := Parse(ORDERED_FUNCTION_SCHEMA, j, fmt).value.props;
      && "trigger" in out && out["trigger"].JObj?
      && (DetectPattern(out["trigger"].props) == "routing" <==> Parse(ROUTING_TRIGGER_SCHEMA, j.props["trigger"], fmt).Ok?)
  {
    ParsedField(ORDERED_FUNCTION_SCHEMA, j, "trigger", fmt);
    OrderedTriggerPattern(j.props["trigger"], fmt);
  }

  /** The extended webhook keeps the closed list of authentication methods,
      and its optional handler comes back only when the document has one. */
  lemma WebhookAccepted(j: Json, fmt: FormatCheck)
    requires Parse(WEBHOOK_SCHEMA, j, fmt).Ok?
    ensures j.JObj? && "auth" in j.props && OneOf(j.props["auth"], WEBHOOK_AUTH)
    ensures var out := Parse(WEBHOOK_SCHEMA, j, fmt).value.props;
      && Kept(out, j.props, "auth") && Kept(out, j.props, "secret")
      && ("handler" in out <==> "handler" in j.props)
      && ("handler" in out ==> Parse(WEBHOOK_HANDLER_SCHEMA, j.props["handler"], fmt) == Ok(out["handler"]))
  {
    KeptOrDefaulted(WEBHOOK_SCHEMA, j, "auth", fmt);
    KeptOrDefaulted(WEBHOOK_SCHEMA, j, "secret", fmt);
    ParsedField(WEBHOOK_SCHEMA, j, "handler", fmt);
  }
}
