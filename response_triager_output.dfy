/** What the response triager agent returns
    (workspace/done/kringle/schemas/response-triager-output.ts): how a lead's
    reply is classified, its sentiment, and what to do next. */
module ResponseTriagerOutput {
  import opened Json
  import opened Zod
  import StatusYamlSchema

  const CLASSIFICATIONS := ["accept_gift", "request_meeting", "delayed", "opt_out",
                            "not_interested", "question", "continue", "unclear"]

  const SENTIMENTS := ["positive", "negative", "neutral"]

  /** `ResponseTriagerOutputSchema` (lines 3-34). */
  const RESPONSE_TRIAGER_OUTPUT_SCHEMA := SObject(map[
    "success" := Field(SBool, Required),
    "classification" := Field(SEnum(CLASSIFICATIONS), Required),
    "sentiment" := Field(SEnum(SENTIMENTS), Required),
    "recommended_action" := Field(SString([]), Required),
    "snooze_until" := Field(SString([Format(DateTime)]), Optional),
    "snooze_reason" := Field(SString([]), Optional),
    "question_summary" := Field(SString([]), Optional),
    "agent_reasoning" := Field(SString([]), Required),
    "error" := Field(SString([]), Optional)
  ])

  /** The keys a triage may leave out. */
  const OPTIONAL_KEYS := ["snooze_until", "snooze_reason", "question_summary", "error"]

  /** Dropping a key from an accepted triage keeps it accepted exactly when
      the key is one of the snooze details, the question summary or the
      error (lines 4-33). */
  lemma TriagerKeyNeeded(j: Json, key: string, fmt: FormatCheck)
    requires Parse(RESPONSE_TRIAGER_OUTPUT_SCHEMA, j, fmt).Ok? && key in RESPONSE_TRIAGER_OUTPUT_SCHEMA.shape
    ensures j.JObj?
    ensures Parse(RESPONSE_TRIAGER_OUTPUT_SCHEMA, JObj(j.props - {key}), fmt).Ok? <==> key in OPTIONAL_KEYS
  {
    assert key in {"success", "classification", "sentiment", "recommended_action", "snooze_until",
                   "snooze_reason", "question_summary", "agent_reasoning", "error"};
    ObjectWithout(RESPONSE_TRIAGER_OUTPUT_SCHEMA, j, key, fmt);
  }

  /** The classification is one of eight, the sentiment one of three, and a
      snooze end, when given, is a datetime (lines 7-17, 23). */
  lemma TriagerFieldsClosed(j: Json, fmt: FormatCheck)
    requires Parse(RESPONSE_TRIAGER_OUTPUT_SCHEMA, j, fmt).Ok?
    ensures j.JObj? && "classification" in j.props && OneOf(j.props["classification"], CLASSIFICATIONS)
    ensures "sentiment" in j.props && OneOf(j.props["sentiment"], SENTIMENTS)
    ensures "snooze_until" in j.props ==> j.props["snooze_until"].JStr? && fmt(DateTime, j.props["snooze_until"].s)
  {
    KeptOrDefaulted(RESPONSE_TRIAGER_OUTPUT_SCHEMA, j, "classification", fmt);
    KeptOrDefaulted(RESPONSE_TRIAGER_OUTPUT_SCHEMA, j, "sentiment", fmt);
    KeptOrDefaulted(RESPONSE_TRIAGER_OUTPUT_SCHEMA, j, "snooze_until", fmt);
    if "snooze_until" in j.props {
      FormatAccepted(DateTime, j.props["snooze_until"], fmt);
    }
  }

  /** The classifications and sentiments are exactly the status record's, so
      a triage's verdict can be stored in a response entry as it is. */
  lemma VerdictStorable(j: Json, fmt: FormatCheck)
    requires Parse(RESPONSE_TRIAGER_OUTPUT_SCHEMA, j, fmt).Ok?
    ensures CLASSIFICATIONS == StatusYamlSchema.RESPONSE_CLASSIFICATIONS
    ensures SENTIMENTS == StatusYamlSchema.SENTIMENTS
    ensures j.JObj? && "classification" in j.props && "sentiment" in j.props
    ensures var c := j.props["classification"];
      Parse(StatusYamlSchema.RESPONSE_RECORD_SCHEMA.shape["classification"].schema, c, fmt) == Ok(c)
    ensures var s := j.props["sentiment"];
      Parse(StatusYamlSchema.RESPONSE_RECORD_SCHEMA.shape["sentiment"].schema, s, fmt) == Ok(s)
  {
    TriagerFieldsClosed(j, fmt);
    assert StatusYamlSchema.RESPONSE_RECORD_SCHEMA.shape["classification"].schema == SEnum(CLASSIFICATIONS);
    assert StatusYamlSchema.RESPONSE_RECORD_SCHEMA.shape["sentiment"].schema == SEnum(SENTIMENTS);
  }

  /** Nothing ties a delayed reply to a snooze end: an accepted triage stays
      accepted when it is classified `delayed` and its snooze end is
      dropped. */
  lemma DelayedWithoutSnooze(j: Json, fmt: FormatCheck)
    requires Parse(RESPONSE_TRIAGER_OUTPUT_SCHEMA, j, fmt).Ok?
    ensures j.JObj?
    ensures var k := JObj(j.props["classification" := JStr("delayed")] - {"snooze_until"});
      Parse(RESPONSE_TRIAGER_OUTPUT_SCHEMA, k, fmt).Ok? && k.props["classification"] == JStr("delayed") && "snooze_until" !in k.props
  {
    ObjectAcceptsReplaced(RESPONSE_TRIAGER_OUTPUT_SCHEMA, j, "classification", JStr("delayed"), fmt);
    ObjectWithout(RESPONSE_TRIAGER_OUTPUT_SCHEMA, JObj(j.props["classification" := JStr("delayed")]), "snooze_until", fmt);
  }
}
