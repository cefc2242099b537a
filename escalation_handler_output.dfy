/** What the escalation handler agent returns
    (workspace/done/kringle/schemas/escalation-handler-output.ts): the action
    a human-reviewed escalation resolves to, with the details each action
    may need. */
module EscalationHandlerOutput {
  import opened Json
  import opened Zod
  import StatusYamlSchema

  const ACTIONS := ["revise_draft", "terminate", "snooze", "schedule_meeting", "reply_to_question"]

  const TERMINATION_REASONS := ["opt_out", "not_interested", "bounced", "complained", "timeout",
                                "human_rejected", "enrichment_failed", "escalated_unresolved"]

  const RESUME_PHASES := ["reach_out", "eex", "post_eex"]

  /** `EscalationHandlerOutputSchema` (lines 3-44). */
  const ESCALATION_HANDLER_OUTPUT_SCHEMA := SObject(map[
    "success" := Field(SBool, Required),
    "action" := Field(SEnum(ACTIONS), Required),
    "draft_feedback" := Field(SString([]), Optional),
    "email_type" := Field(SString([]), Optional),
    "snoozed_until" := Field(SString([Format(DateTime)]), Optional),
    "snooze_reason" := Field(SString([]), Optional),
    "resume_at_phase" := Field(SEnum(RESUME_PHASES), Optional),
    "reason" := Field(SEnum(TERMINATION_REASONS), Optional),
    "terminated_at_phase" := Field(SString([]), Optional),
    "agent_reasoning" := Field(SString([]), Required),
    "error" := Field(SString([]), Optional)
  ])

  /** The keys an output cannot do without. */
  const REQUIRED_KEYS := ["success", "action", "agent_reasoning"]

  /** The keys an output may leave out. */
  const OPTIONAL_KEYS := ["draft_feedback", "email_type", "snoozed_until", "snooze_reason",
                          "resume_at_phase", "reason", "terminated_at_phase", "error"]

  /** Every declared key is either required or optional. */
  lemma EscalationKeysSplit(key: string)
    requires key in ESCALATION_HANDLER_OUTPUT_SCHEMA.shape
    ensures key in REQUIRED_KEYS <==> ESCALATION_HANDLER_OUTPUT_SCHEMA.shape[key].presence.Required?
    ensures key in OPTIONAL_KEYS <==> ESCALATION_HANDLER_OUTPUT_SCHEMA.shape[key].presence.Optional?
  {
    assert key in {"success", "action", "draft_feedback", "email_type", "snoozed_until", "snooze_reason",
                   "resume_at_phase", "reason", "terminated_at_phase", "agent_reasoning", "error"};
  }

  /** Dropping a key from an accepted output keeps it accepted exactly when
      the key is not one of `success`, `action` and `agent_reasoning`
      (lines 4, 7, 16-43). */
  lemma EscalationKeyNeeded(j: Json, key: string, fmt: FormatCheck)
    requires Parse(ESCALATION_HANDLER_OUTPUT_SCHEMA, j, fmt).Ok? && key in ESCALATION_HANDLER_OUTPUT_SCHEMA.shape
    ensures j.JObj?
    ensures Parse(ESCALATION_HANDLER_OUTPUT_SCHEMA, JObj(j.props - {key}), fmt).Ok? <==> key !in REQUIRED_KEYS
  {
    EscalationKeysSplit(key);
    ObjectWithout(ESCALATION_HANDLER_OUTPUT_SCHEMA, j, key, fmt);
  }

  /** An accepted output names one of the five actions, and a termination
      reason, when given, is one of the eight (lines 7-13, 27-36). */
  lemma EscalationActionClosed(j: Json, fmt: FormatCheck)
    requires Parse(ESCALATION_HANDLER_OUTPUT_SCHEMA, j, fmt).Ok?
    ensures j.JObj? && "action" in j.props && OneOf(j.props["action"], ACTIONS)
    ensures "reason" in j.props ==> OneOf(j.props["reason"], TERMINATION_REASONS)
  {
    KeptOrDefaulted(ESCALATION_HANDLER_OUTPUT_SCHEMA, j, "action", fmt);
    KeptOrDefaulted(ESCALATION_HANDLER_OUTPUT_SCHEMA, j, "reason", fmt);
  }

  /** A snooze end, when given, is a datetime, and a resume phase, when
      given, is one of the three outreach phases (lines 21, 23). */
  lemma EscalationSnoozeClosed(j: Json, fmt: FormatCheck)
    requires Parse(ESCALATION_HANDLER_OUTPUT_SCHEMA, j, fmt).Ok?
    ensures j.JObj?
    ensures "snoozed_until" in j.props ==> j.props["snoozed_until"].JStr? && fmt(DateTime, j.props["snoozed_until"].s)
    ensures "resume_at_phase" in j.props ==> OneOf(j.props["resume_at_phase"], RESUME_PHASES)
  {
    KeptOrDefaulted(ESCALATION_HANDLER_OUTPUT_SCHEMA, j, "snoozed_until", fmt);
    KeptOrDefaulted(ESCALATION_HANDLER_OUTPUT_SCHEMA, j, "resume_at_phase", fmt);
    if "snoozed_until" in j.props {
      FormatAccepted(DateTime, j.props["snoozed_until"], fmt);
    }
  }

  /** The resume phases are those of the status record's snooze section, so a
      phase the handler returns can be stored there as it is. */
  lemma ResumePhaseStorable(j: Json, fmt: FormatCheck)
    requires Parse(ESCALATION_HANDLER_OUTPUT_SCHEMA, j, fmt).Ok?
    ensures RESUME_PHASES == StatusYamlSchema.RESUME_PHASES
    ensures j.JObj? && "resume_at_phase" in j.props ==>
      var snooze := StatusYamlSchema.SNOOZE_SCHEMA.shape["resume_at_phase"].schema;
      Parse(snooze, j.props["resume_at_phase"], fmt) == Ok(j.props["resume_at_phase"])
  {
    EscalationSnoozeClosed(j, fmt);
  }

  /** Nothing ties the action to the fields it needs: an accepted output
      stays accepted when its action becomes `snooze` and its snooze end is
      dropped. */
  lemma SnoozeWithoutEnd(j: Json, fmt: FormatCheck)
    requires Parse(ESCALATION_HANDLER_OUTPUT_SCHEMA, j, fmt).Ok?
    ensures j.JObj?
    ensures var k := JObj(j.props["action" := JStr("snooze")] - {"snoozed_until"});
      Parse(ESCALATION_HANDLER_OUTPUT_SCHEMA, k, fmt).Ok? && k.props["action"] == JStr("snooze") && "snoozed_until" !in k.props
  {
    ObjectAcceptsReplaced(ESCALATION_HANDLER_OUTPUT_SCHEMA, j, "action", JStr("snooze"), fmt);
    ObjectWithout(ESCALATION_HANDLER_OUTPUT_SCHEMA, JObj(j.props["action" := JStr("snooze")]), "snoozed_until", fmt);
  }
}
