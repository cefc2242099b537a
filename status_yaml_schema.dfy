/** The lead status record (workspace/done/kringle/schemas/status-yaml-schema.ts):
    the travelling document that records one lead's way through the system,
    section by section, and the record a freshly captured lead starts with.

    The time of capture is a parameter `now` (the source reads the clock), and
    the string formats are the parameter `fmt` of every parse. */
module StatusYamlSchema {
  import opened Json
  import opened Zod

  // --- Field schemas shared by the sections ---

  const STR := SString([])
  const NULLABLE_STR := SNullable(STR)
  const UUID := SString([Format(Uuid)])
  const DATETIME := SString([Format(DateTime)])
  const NULLABLE_DATETIME := SNullable(DATETIME)
  const NULLABLE_URL := SNullable(SString([Format(Url)]))
  /** `z.number().min(0).max(1)`: scores and confidences. */
  const UNIT := SNumber([Min(0.0), Max(1.0)])
  /** `z.number().int().positive()`. */
  const POSITIVE_INT := SNumber([IsInt, Positive])
  /** `z.number().int().min(0)`. */
  const NON_NEGATIVE_INT := SNumber([IsInt, Min(0.0)])

  // --- Meta and position (lines 17-43) ---

  const META_SCHEMA := SObject(map[
    "lead_id" := Field(UUID, Required),
    "organization_id" := Field(UUID, Required),
    "created_at" := Field(DATETIME, Required),
    "updated_at" := Field(DATETIME, Required),
    "version" := Field(POSITIVE_INT, Required)
  ])

  const PHASES := ["ingestion", "matching", "campaign", "reach_out", "eex", "post_eex", "outcome", "complete"]

  const POSITION_SCHEMA := SObject(map[
    "current_phase" := Field(SEnum(PHASES), Required),
    "current_state" := Field(STR, Required),
    "current_step" := Field(NULLABLE_STR, Required),
    "next_event_expected" := Field(NULLABLE_STR, Required)
  ])

  // --- Enrichment (lines 49-71) ---

  const FIRECRAWL_SCHEMA := SObject(map[
    "status" := Field(SEnum(["pending", "complete", "failed", "skipped"]), Required),
    "company_url" := Field(NULLABLE_URL, Required),
    "homepage_context_path" := Field(NULLABLE_STR, Required),
    "completed_at" := Field(NULLABLE_DATETIME, Required)
  ])

  const CLAY_SCHEMA := SObject(map[
    "status" := Field(SEnum(["pending", "complete", "failed"]), Required),
    "email" := Field(SNullable(SString([Format(Email)])), Required),
    "title" := Field(NULLABLE_STR, Required),
    "linkedin_url" := Field(NULLABLE_URL, Required),
    "company_name" := Field(NULLABLE_STR, Required),
    "company_size" := Field(NULLABLE_STR, Required),
    "industry" := Field(NULLABLE_STR, Required),
    "funding_stage" := Field(NULLABLE_STR, Required),
    "completed_at" := Field(NULLABLE_DATETIME, Required)
  ])

  const ENRICHMENT_SCHEMA := SObject(map[
    "status" := Field(SEnum(["pending", "in_progress", "complete", "partial", "failed"]), Required),
    "source_webhook" := Field(STR, Required),
    "firecrawl" := Field(SNullable(FIRECRAWL_SCHEMA), Required),
    "clay" := Field(SNullable(CLAY_SCHEMA), Required),
    "completed_at" := Field(NULLABLE_DATETIME, Required),
    "failure_reason" := Field(NULLABLE_STR, Required)
  ])

  // --- Persona matching (lines 77-92) ---

  const PERSONA_SCORE_SCHEMA := SObject(map[
    "persona_id" := Field(UUID, Required),
    "persona_name" := Field(STR, Required),
    "score" := Field(UNIT, Required),
    "passed_threshold" := Field(SBool, Required)
  ])

  const PERSONA_MATCHING_SCHEMA := SObject(map[
    "status" := Field(SEnum(["pending", "matched", "no_match", "insufficient_data"]), Required),
    "evaluated_personas" := Field(SArray(PERSONA_SCORE_SCHEMA), Required),
    "matched_persona_id" := Field(SNullable(UUID), Required),
    "matched_persona_name" := Field(NULLABLE_STR, Required),
    "confidence_score" := Field(SNullable(UNIT), Required),
    "agent_reasoning" := Field(NULLABLE_STR, Required),
    "completed_at" := Field(NULLABLE_DATETIME, Required)
  ])

  // --- Campaign (lines 98-122) ---

  const EMAIL_RECORD_SCHEMA := SObject(map[
    "email_id" := Field(UUID, Required),
    "email_type" := Field(STR, Required),
    "draft_version" := Field(POSITIVE_INT, Required),
    "draft_path" := Field(NULLABLE_STR, Required),
    "subject" := Field(NULLABLE_STR, Required),
    "body_preview" := Field(NULLABLE_STR, Required),
    "status" := Field(SEnum(["drafted", "pending_approval", "approved", "rejected", "sent",
                             "delivered", "opened", "clicked", "bounced", "complained"]), Required),
    "drafted_at" := Field(NULLABLE_DATETIME, Required),
    "approved_at" := Field(NULLABLE_DATETIME, Required),
    "approved_by" := Field(NULLABLE_STR, Required),
    "sent_at" := Field(NULLABLE_DATETIME, Required),
    "resend_message_id" := Field(NULLABLE_STR, Required)
  ])

  const CAMPAIGN_SCHEMA := SObject(map[
    "campaign_id" := Field(UUID, Required),
    "persona_id" := Field(UUID, Required),
    "template_source" := Field(STR, Required),
    "current_phase" := Field(SEnum(["reach_out", "eex", "post_eex", "complete"]), Required),
    "eex_step" := Field(SNullable(NON_NEGATIVE_INT), Required),
    "eex_steps_total" := Field(SNullable(POSITIVE_INT), Required),
    "emails" := Field(SArray(EMAIL_RECORD_SCHEMA), Required),
    "created_at" := Field(DATETIME, Required)
  ])

  // --- Approvals, responses, escalations (lines 128-181) ---

  const APPROVAL_RECORD_SCHEMA := SObject(map[
    "approval_id" := Field(UUID, Required),
    "email_type" := Field(STR, Required),
    "draft_version" := Field(POSITIVE_INT, Required),
    "status" := Field(SEnum(["pending", "approved", "rejected", "timeout"]), Required),
    "requested_at" := Field(DATETIME, Required),
    "approver_id" := Field(STR, Required),
    "reminder_count" := Field(NON_NEGATIVE_INT, Required),
    "approved_at" := Field(NULLABLE_DATETIME, Required),
    "rejected_at" := Field(NULLABLE_DATETIME, Required),
    "feedback" := Field(NULLABLE_STR, Required),
    "modifications" := Field(NULLABLE_STR, Required)
  ])

  const RESPONSE_CLASSIFICATIONS := ["accept_gift", "request_meeting", "delayed", "opt_out",
                                     "not_interested", "question", "continue", "unclear"]

  const SENTIMENTS := ["positive", "negative", "neutral"]

  const RESPONSE_RECORD_SCHEMA := SObject(map[
    "response_id" := Field(UUID, Required),
    "received_at" := Field(DATETIME, Required),
    "in_reply_to_email_type" := Field(STR, Required),
    "in_reply_to_message_id" := Field(STR, Required),
    "classification" := Field(SEnum(RESPONSE_CLASSIFICATIONS), Required),
    "sentiment" := Field(SEnum(SENTIMENTS), Required),
    "recommended_action" := Field(STR, Required),
    "raw_snippet" := Field(STR, Required),
    "agent_reasoning" := Field(STR, Required)
  ])

  const ESCALATION_RECORD_SCHEMA := SObject(map[
    "escalation_id" := Field(UUID, Required),
    "reason" := Field(STR, Required),
    "escalated_at" := Field(DATETIME, Required),
    "escalated_to" := Field(STR, Required),
    "status" := Field(SEnum(["pending", "resolved"]), Required),
    "resolved_at" := Field(NULLABLE_DATETIME, Required),
    "resolved_by" := Field(NULLABLE_STR, Required),
    "resolution_action" := Field(NULLABLE_STR, Required),
    "resolution_notes" := Field(NULLABLE_STR, Required)
  ])

  // --- Snooze, rejection, outcome, events log (lines 187-228) ---

  const RESUME_PHASES := ["reach_out", "eex", "post_eex"]

  const SNOOZE_SCHEMA := SObject(map[
    "status" := Field(SEnum(["active", "snoozed"]), Required),
    "snoozed_at" := Field(NULLABLE_DATETIME, Required),
    "snoozed_until" := Field(NULLABLE_DATETIME, Required),
    "reason" := Field(NULLABLE_STR, Required),
    "snoozed_by" := Field(SNullable(SEnum(["agent", "human"])), Required),
    "resume_at_phase" := Field(SNullable(SEnum(RESUME_PHASES)), Required)
  ])

  const REJECTION_RECORD_SCHEMA := SObject(map[
    "rejected_at" := Field(DATETIME, Required),
    "rejected_by" := Field(STR, Required),
    "rejected_at_phase" := Field(STR, Required),
    "rejected_at_step" := Field(NULLABLE_STR, Required),
    "feedback" := Field(STR, Required)
  ])

  const OUTCOME_SCHEMA := SObject(map[
    "status" := Field(SEnum(["in_progress", "converted", "terminated", "archived"]), Required),
    "reason" := Field(NULLABLE_STR, Required),
    "meeting_id" := Field(SNullable(UUID), Required),
    "meeting_datetime" := Field(NULLABLE_DATETIME, Required),
    "completed_at" := Field(NULLABLE_DATETIME, Required)
  ])

  const EVENT_LOG_ENTRY_SCHEMA := SObject(map[
    "event" := Field(STR, Required),
    "timestamp" := Field(DATETIME, Required),
    "data" := Field(SRecord(SAny), Optional)
  ])

  // --- The whole record (lines 234-247) ---

  const STATUS_YAML_SCHEMA := SObject(map[
    "meta" := Field(META_SCHEMA, Required),
    "position" := Field(POSITION_SCHEMA, Required),
    "enrichment" := Field(ENRICHMENT_SCHEMA, Required),
    "persona_matching" := Field(PERSONA_MATCHING_SCHEMA, Required),
    "campaign" := Field(SNullable(CAMPAIGN_SCHEMA), Required),
    "approvals" := Field(SArray(APPROVAL_RECORD_SCHEMA), Required),
    "responses" := Field(SArray(RESPONSE_RECORD_SCHEMA), Required),
    "escalations" := Field(SArray(ESCALATION_RECORD_SCHEMA), Required),
    "snooze" := Field(SNOOZE_SCHEMA, Required),
    "rejection" := Field(SNullable(REJECTION_RECORD_SCHEMA), Required),
    "outcome" := Field(OUTCOME_SCHEMA, Required),
    "events_log" := Field(SArray(EVENT_LOG_ENTRY_SCHEMA), Required)
  ])

  // ---------------------------------------------------------------------------
  // What the sections accept
  // ---------------------------------------------------------------------------

  /** The meta section's version is a positive integer (line 22). */
  lemma MetaVersionPositive(x: Json, fmt: FormatCheck)
    requires Parse(META_SCHEMA, x, fmt).Ok?
    ensures x.JObj? && "version" in x.props && IntAtLeast(x.props["version"], 1)
  {
    KeptOrDefaulted(META_SCHEMA, x, "version", fmt);
    PositiveIntAccepted(x.props["version"], fmt);
  }

  /** The current phase is one of the eight phases of the pipeline
      (lines 30-39). */
  lemma PositionPhaseClosed(x: Json, fmt: FormatCheck)
    requires Parse(POSITION_SCHEMA, x, fmt).Ok?
    ensures x.JObj? && "current_phase" in x.props && OneOf(x.props["current_phase"], PHASES)
    ensures |PHASES| == 8
  {
    KeptOrDefaulted(POSITION_SCHEMA, x, "current_phase", fmt);
  }

  /** A persona score names the persona by a UUID and carries its name, a
      score in [0, 1] and whether it passed the threshold. */
  predicate PersonaScoreShaped(x: Json, fmt: FormatCheck)
  {
    && x.JObj?
    && StrAt(x.props, "persona_id") && fmt(Uuid, x.props["persona_id"].s)
    && StrAt(x.props, "persona_name")
    && "score" in x.props && UnitInterval(x.props["score"])
    && BoolAt(x.props, "passed_threshold")
  }

  lemma PersonaScoreAcceptedIsShaped(x: Json, fmt: FormatCheck)
    requires Parse(PERSONA_SCORE_SCHEMA, x, fmt).Ok?
    ensures PersonaScoreShaped(x, fmt)
  {
    KeptOrDefaulted(PERSONA_SCORE_SCHEMA, x, "persona_id", fmt);
    KeptOrDefaulted(PERSONA_SCORE_SCHEMA, x, "persona_name", fmt);
    KeptOrDefaulted(PERSONA_SCORE_SCHEMA, x, "score", fmt);
    KeptOrDefaulted(PERSONA_SCORE_SCHEMA, x, "passed_threshold", fmt);
    FormatAccepted(Uuid, x.props["persona_id"], fmt);
    UnitAccepted(x.props["score"], fmt);
  }

  lemma PersonaScoreShapedIsAccepted(x: Json, fmt: FormatCheck)
    requires PersonaScoreShaped(x, fmt)
    ensures Parse(PERSONA_SCORE_SCHEMA, x, fmt).Ok?
  {
    var m := x.props;
    FormatAccepted(Uuid, m["persona_id"], fmt);
    UnitAccepted(m["score"], fmt);
    forall k | k in PERSONA_SCORE_SCHEMA.shape ensures ParseField(PERSONA_SCORE_SCHEMA, k, m, fmt).Ok? {
    }
  }

  /** A persona score is accepted exactly when it is shaped as above
      (lines 77-82). */
  lemma PersonaScoreAccepted(x: Json, fmt: FormatCheck)
    ensures Parse(PERSONA_SCORE_SCHEMA, x, fmt).Ok? <==> PersonaScoreShaped(x, fmt)
  {
    if Parse(PERSONA_SCORE_SCHEMA, x, fmt).Ok? {
      PersonaScoreAcceptedIsShaped(x, fmt);
    }
    if PersonaScoreShaped(x, fmt) {
      PersonaScoreShapedIsAccepted(x, fmt);
    }
  }

  /** Every evaluated persona's score, and the confidence when there is one,
      lies in [0, 1] (lines 80, 89). */
  lemma PersonaMatchingBounds(x: Json, fmt: FormatCheck)
    requires Parse(PERSONA_MATCHING_SCHEMA, x, fmt).Ok?
    ensures x.JObj? && "evaluated_personas" in x.props && "confidence_score" in x.props
    ensures var c := x.props["confidence_score"]; c.JNull? || UnitInterval(c)
    ensures var ps := x.props["evaluated_personas"];
      ps.JArr? && forall i | 0 <= i < |ps.items| ::
        ps.items[i].JObj? && "score" in ps.items[i].props && UnitInterval(ps.items[i].props["score"])
  {
    ParsedField(PERSONA_MATCHING_SCHEMA, x, "evaluated_personas", fmt);
    KeptOrDefaulted(PERSONA_MATCHING_SCHEMA, x, "confidence_score", fmt);
    var c := x.props["confidence_score"];
    if !c.JNull? {
      UnitAccepted(c, fmt);
    }
    var ps := x.props["evaluated_personas"];
    forall i | 0 <= i < |ps.items|
      ensures ps.items[i].JObj? && "score" in ps.items[i].props && UnitInterval(ps.items[i].props["score"])
    {
      assert Parse(PERSONA_SCORE_SCHEMA, ps.items[i], fmt).Ok?;
      PersonaScoreAccepted(ps.items[i], fmt);
    }
  }

  /** A recorded email's draft version is a positive integer (line 101). */
  lemma EmailDraftVersionPositive(x: Json, fmt: FormatCheck)
    requires Parse(EMAIL_RECORD_SCHEMA, x, fmt).Ok?
    ensures x.JObj? && "draft_version" in x.props && IntAtLeast(x.props["draft_version"], 1)
  {
    KeptOrDefaulted(EMAIL_RECORD_SCHEMA, x, "draft_version", fmt);
    PositiveIntAccepted(x.props["draft_version"], fmt);
  }

  /** The campaign's step is null or a whole number, and its step total null
      or a positive whole number (lines 118-119). */
  lemma CampaignStepBounds(x: Json, fmt: FormatCheck)
    requires Parse(CAMPAIGN_SCHEMA, x, fmt).Ok?
    ensures x.JObj? && "eex_step" in x.props && "eex_steps_total" in x.props
    ensures x.props["eex_step"].JNull? || IntAtLeast(x.props["eex_step"], 0)
    ensures x.props["eex_steps_total"].JNull? || IntAtLeast(x.props["eex_steps_total"], 1)
  {
    KeptOrDefaulted(CAMPAIGN_SCHEMA, x, "eex_step", fmt);
    KeptOrDefaulted(CAMPAIGN_SCHEMA, x, "eex_steps_total", fmt);
    NonNegativeIntAccepted(x.props["eex_step"], fmt);
    PositiveIntAccepted(x.props["eex_steps_total"], fmt);
  }

  /** Nothing orders the step against the total: an accepted campaign stays
      accepted with any whole step beyond a total of one. */
  lemma CampaignStepUnordered(x: Json, step: nat, fmt: FormatCheck)
    requires Parse(CAMPAIGN_SCHEMA, x, fmt).Ok? && step > 1
    ensures x.JObj?
    ensures var y := JObj(x.props["eex_step" := JNum(step as real)]["eex_steps_total" := JNum(1.0)]);
      Parse(CAMPAIGN_SCHEMA, y, fmt).Ok?
  {
    NonNegativeIntAccepted(JNum(step as real), fmt);
    PositiveIntAccepted(JNum(1.0), fmt);
    ObjectAcceptsReplaced(CAMPAIGN_SCHEMA, x, "eex_step", JNum(step as real), fmt);
    var x1 := JObj(x.props["eex_step" := JNum(step as real)]);
    ObjectAcceptsReplaced(CAMPAIGN_SCHEMA, x1, "eex_steps_total", JNum(1.0), fmt);
  }

  /** An approval's draft version is a positive integer and its reminder
      count a whole number (lines 131, 135). */
  lemma ApprovalCountBounds(x: Json, fmt: FormatCheck)
    requires Parse(APPROVAL_RECORD_SCHEMA, x, fmt).Ok?
    ensures x.JObj? && "draft_version" in x.props && "reminder_count" in x.props
    ensures IntAtLeast(x.props["draft_version"], 1) && IntAtLeast(x.props["reminder_count"], 0)
  {
    KeptOrDefaulted(APPROVAL_RECORD_SCHEMA, x, "draft_version", fmt);
    KeptOrDefaulted(APPROVAL_RECORD_SCHEMA, x, "reminder_count", fmt);
    PositiveIntAccepted(x.props["draft_version"], fmt);
    NonNegativeIntAccepted(x.props["reminder_count"], fmt);
  }

  /** A snoozed lead resumes, if at all, at one of the three outreach phases
      (line 193). */
  lemma SnoozeResumeClosed(x: Json, fmt: FormatCheck)
    requires Parse(SNOOZE_SCHEMA, x, fmt).Ok?
    ensures x.JObj? && "resume_at_phase" in x.props
    ensures x.props["resume_at_phase"].JNull? || OneOf(x.props["resume_at_phase"], RESUME_PHASES)
  {
    KeptOrDefaulted(SNOOZE_SCHEMA, x, "resume_at_phase", fmt);
  }

  // ---------------------------------------------------------------------------
  // The initial record (lines 255-321)
  // ---------------------------------------------------------------------------

  // The record is one object literal in the source; its sections are named
  // here so that each can be checked on its own.

  function InitialMeta(leadId: string, organizationId: string, now: string): Json
  {
    JObj(map[
      "lead_id" := JStr(leadId),
      "organization_id" := JStr(organizationId),
      "created_at" := JStr(now),
      "updated_at" := JStr(now),
      "version" := JNum(1.0)
    ])
  }

  const INITIAL_POSITION := JObj(map[
    "current_phase" := JStr("ingestion"),
    "current_state" := JStr("ingested"),
    "current_step" := JNull,
    "next_event_expected" := JStr("enrichment.started")
  ])

  const INITIAL_ENRICHMENT := JObj(map[
    "status" := JStr("pending"),
    "source_webhook" := JStr("rb2b"),
    "firecrawl" := JNull,
    "clay" := JNull,
    "completed_at" := JNull,
    "failure_reason" := JNull
  ])

  const INITIAL_PERSONA_MATCHING := JObj(map[
    "status" := JStr("pending"),
    "evaluated_personas" := JArr([]),
    "matched_persona_id" := JNull,
    "matched_persona_name" := JNull,
    "confidence_score" := JNull,
    "agent_reasoning" := JNull,
    "completed_at" := JNull
  ])

  const INITIAL_SNOOZE := JObj(map[
    "status" := JStr("active"),
    "snoozed_at" := JNull,
    "snoozed_until" := JNull,
    "reason" := JNull,
    "snoozed_by" := JNull,
    "resume_at_phase" := JNull
  ])

  const INITIAL_OUTCOME := JObj(map[
    "status" := JStr("in_progress"),
    "reason" := JNull,
    "meeting_id" := JNull,
    "meeting_datetime" := JNull,
    "completed_at" := JNull
  ])

  /** The one entry of the events log: the lead was ingested at `now`, from
      the page at `capturedUrl`. */
  function IngestedEntry(capturedUrl: string, now: string): Json
  {
    JObj(map[
      "event" := JStr("lead.ingested"),
      "timestamp" := JStr(now),
      "data" := JObj(map["captured_url" := JStr(capturedUrl)])
    ])
  }

  /** `createInitialStatusYaml`: the status record of a lead captured at `now`. */
  function CreateInitialStatusYaml(leadId: string, organizationId: string, capturedUrl: string, now: string): (r: Json)
    ensures r.JObj? && "meta" in r.props && "events_log" in r.props
  {
    FreshRecord(InitialMeta(leadId, organizationId, now), INITIAL_POSITION, INITIAL_ENRICHMENT,
      INITIAL_PERSONA_MATCHING, INITIAL_SNOOZE, INITIAL_OUTCOME, JArr([IngestedEntry(capturedUrl, now)]))
  }

  /** The meta section is accepted exactly when both ids are UUIDs and the
      capture time is a datetime, and is then returned unchanged. */
  lemma InitialMetaAccepted(leadId: string, organizationId: string, now: string, fmt: FormatCheck)
    ensures var meta := InitialMeta(leadId, organizationId, now);
      && (Parse(META_SCHEMA, meta, fmt).Ok? <==> fmt(Uuid, leadId) && fmt(Uuid, organizationId) && fmt(DateTime, now))
      && (Parse(META_SCHEMA, meta, fmt).Ok? ==> Parse(META_SCHEMA, meta, fmt) == Ok(meta))
  {
    var meta := InitialMeta(leadId, organizationId, now);
    FormatAccepted(Uuid, JStr(leadId), fmt);
    FormatAccepted(Uuid, JStr(organizationId), fmt);
    FormatAccepted(DateTime, JStr(now), fmt);
    PositiveIntAccepted(JNum(1.0), fmt);
    if fmt(Uuid, leadId) && fmt(Uuid, organizationId) && fmt(DateTime, now) {
      ObjectReturnsItself(META_SCHEMA, meta, fmt);
    } else if !fmt(Uuid, leadId) {
      ObjectRejects(META_SCHEMA, meta, "lead_id", fmt);
    } else if !fmt(Uuid, organizationId) {
      ObjectRejects(META_SCHEMA, meta, "organization_id", fmt);
    } else {
      ObjectRejects(META_SCHEMA, meta, "created_at", fmt);
    }
  }

  /** With a datetime `now`, the ingestion entry is returned unchanged. */
  lemma IngestedEntryReturned(capturedUrl: string, now: string, fmt: FormatCheck)
    requires fmt(DateTime, now)
    ensures Parse(EVENT_LOG_ENTRY_SCHEMA, IngestedEntry(capturedUrl, now), fmt) == Ok(IngestedEntry(capturedUrl, now))
  {
    var e := IngestedEntry(capturedUrl, now);
    FormatAccepted(DateTime, JStr(now), fmt);
    assert Parse(SRecord(SAny), e.props["data"], fmt).value.props == e.props["data"].props;
    ObjectReturnsItself(EVENT_LOG_ENTRY_SCHEMA, e, fmt);
  }

  /** Without a datetime `now`, the ingestion entry is rejected. */
  lemma IngestedEntryRejected(capturedUrl: string, now: string, fmt: FormatCheck)
    requires !fmt(DateTime, now)
    ensures !Parse(EVENT_LOG_ENTRY_SCHEMA, IngestedEntry(capturedUrl, now), fmt).Ok?
  {
    FormatAccepted(DateTime, JStr(now), fmt);
    ObjectRejects(EVENT_LOG_ENTRY_SCHEMA, IngestedEntry(capturedUrl, now), "timestamp", fmt);
  }

  /** The ingestion entry is accepted exactly when `now` is a datetime, and
      is then returned unchanged. */
  lemma IngestedEntryAccepted(capturedUrl: string, now: string, fmt: FormatCheck)
    ensures var e := IngestedEntry(capturedUrl, now);
      && (Parse(EVENT_LOG_ENTRY_SCHEMA, e, fmt).Ok? <==> fmt(DateTime, now))
      && (Parse(EVENT_LOG_ENTRY_SCHEMA, e, fmt).Ok? ==> Parse(EVENT_LOG_ENTRY_SCHEMA, e, fmt) == Ok(e))
  {
    if fmt(DateTime, now) {
      IngestedEntryReturned(capturedUrl, now, fmt);
    } else {
      IngestedEntryRejected(capturedUrl, now, fmt);
    }
  }

  // Each fixed section of the initial record is returned unchanged.

  lemma InitialPositionAccepted(fmt: FormatCheck)
    ensures Parse(POSITION_SCHEMA, INITIAL_POSITION, fmt) == Ok(INITIAL_POSITION)
  {
    var m := INITIAL_POSITION.props;
    assert forall k | k in POSITION_SCHEMA.shape :: k in m && Parse(POSITION_SCHEMA.shape[k].schema, m[k], fmt) == Ok(m[k]) by {
      forall k | k in POSITION_SCHEMA.shape
        ensures k in m && Parse(POSITION_SCHEMA.shape[k].schema, m[k], fmt) == Ok(m[k])
      {
        assert k in {"current_phase", "current_state", "current_step", "next_event_expected"};
      }
    }
    ObjectReturnsItself(POSITION_SCHEMA, INITIAL_POSITION, fmt);
  }

  lemma InitialEnrichmentAccepted(fmt: FormatCheck)
    ensures Parse(ENRICHMENT_SCHEMA, INITIAL_ENRICHMENT, fmt) == Ok(INITIAL_ENRICHMENT)
  {
    var m := INITIAL_ENRICHMENT.props;
    assert forall k | k in ENRICHMENT_SCHEMA.shape :: k in m && Parse(ENRICHMENT_SCHEMA.shape[k].schema, m[k], fmt) == Ok(m[k]) by {
      forall k | k in ENRICHMENT_SCHEMA.shape
        ensures k in m && Parse(ENRICHMENT_SCHEMA.shape[k].schema, m[k], fmt) == Ok(m[k])
      {
        assert k in {"status", "source_webhook", "firecrawl", "clay", "completed_at", "failure_reason"};
      }
    }
    ObjectReturnsItself(ENRICHMENT_SCHEMA, INITIAL_ENRICHMENT, fmt);
  }

  lemma InitialPersonaMatchingAccepted(fmt: FormatCheck)
    ensures Parse(PERSONA_MATCHING_SCHEMA, INITIAL_PERSONA_MATCHING, fmt) == Ok(INITIAL_PERSONA_MATCHING)
  {
    var m := INITIAL_PERSONA_MATCHING.props;
    EmptyArrayAccepted(PERSONA_SCORE_SCHEMA, fmt);
    assert forall k | k in PERSONA_MATCHING_SCHEMA.shape :: k in m && Parse(PERSONA_MATCHING_SCHEMA.shape[k].schema, m[k], fmt) == Ok(m[k]) by {
      forall k | k in PERSONA_MATCHING_SCHEMA.shape
        ensures k in m && Parse(PERSONA_MATCHING_SCHEMA.shape[k].schema, m[k], fmt) == Ok(m[k])
      {
        assert k in {"status", "evaluated_personas", "matched_persona_id", "matched_persona_name", "confidence_score", "agent_reasoning", "completed_at"};
      }
    }
    ObjectReturnsItself(PERSONA_MATCHING_SCHEMA, INITIAL_PERSONA_MATCHING, fmt);
  }

  lemma InitialSnoozeAccepted(fmt: FormatCheck)
    ensures Parse(SNOOZE_SCHEMA, INITIAL_SNOOZE, fmt) == Ok(INITIAL_SNOOZE)
  {
    var m := INITIAL_SNOOZE.props;
    assert forall k | k in SNOOZE_SCHEMA.shape :: k in m && Parse(SNOOZE_SCHEMA.shape[k].schema, m[k], fmt) == Ok(m[k]) by {
      forall k | k in SNOOZE_SCHEMA.shape
        ensures k in m && Parse(SNOOZE_SCHEMA.shape[k].schema, m[k], fmt) == Ok(m[k])
      {
        assert k in {"status", "snoozed_at", "snoozed_until", "reason", "snoozed_by", "resume_at_phase"};
      }
    }
    ObjectReturnsItself(SNOOZE_SCHEMA, INITIAL_SNOOZE, fmt);
  }

  lemma InitialOutcomeAccepted(fmt: FormatCheck)
    ensures Parse(OUTCOME_SCHEMA, INITIAL_OUTCOME, fmt) == Ok(INITIAL_OUTCOME)
  {
    var m := INITIAL_OUTCOME.props;
    assert forall k | k in OUTCOME_SCHEMA.shape :: k in m && Parse(OUTCOME_SCHEMA.shape[k].schema, m[k], fmt) == Ok(m[k]) by {
      forall k | k in OUTCOME_SCHEMA.shape
        ensures k in m && Parse(OUTCOME_SCHEMA.shape[k].schema, m[k], fmt) == Ok(m[k])
      {
        assert k in {"status", "reason", "meeting_id", "meeting_datetime", "completed_at"};
      }
    }
    ObjectReturnsItself(OUTCOME_SCHEMA, INITIAL_OUTCOME, fmt);
  }

  /** A fresh record: the given sections, no campaign, no rejection and
      empty approval, response and escalation lists. */
  function FreshRecord(meta: Json, position: Json, enrichment: Json, personaMatching: Json,
                       snooze: Json, outcome: Json, eventsLog: Json): Json
  {
    JObj(map[
      "meta" := meta,
      "position" := position,
      "enrichment" := enrichment,
      "persona_matching" := personaMatching,
      "campaign" := JNull,
      "approvals" := JArr([]),
      "responses" := JArr([]),
      "escalations" := JArr([]),
      "snooze" := snooze,
      "rejection" := JNull,
      "outcome" := outcome,
      "events_log" := eventsLog
    ])
  }

  // The keys of a fresh record, added to `FieldsReturnThemselves` four at a
  // time to keep each proof small.

  lemma FreshRecordSections(sh0: map<string, Field>, ps0: map<string, Json>, meta: Json, position: Json, enrichment: Json, personaMatching: Json, fmt: FormatCheck)
    requires FieldsReturnThemselves(sh0, ps0, fmt)
    requires Parse(META_SCHEMA, meta, fmt) == Ok(meta)
    requires Parse(POSITION_SCHEMA, position, fmt) == Ok(position)
    requires Parse(ENRICHMENT_SCHEMA, enrichment, fmt) == Ok(enrichment)
    requires Parse(PERSONA_MATCHING_SCHEMA, personaMatching, fmt) == Ok(personaMatching)
    ensures FieldsReturnThemselves(
      sh0["meta" := Field(META_SCHEMA, Required)]["position" := Field(POSITION_SCHEMA, Required)]["enrichment" := Field(ENRICHMENT_SCHEMA, Required)]["persona_matching" := Field(PERSONA_MATCHING_SCHEMA, Required)],
      ps0["meta" := meta]["position" := position]["enrichment" := enrichment]["persona_matching" := personaMatching], fmt)
  {
    var sh, ps := sh0, ps0;
    FieldsReturnThemselvesAdd(sh, ps, "meta", Field(META_SCHEMA, Required), meta, fmt);
    sh, ps := sh["meta" := Field(META_SCHEMA, Required)], ps["meta" := meta];
    FieldsReturnThemselvesAdd(sh, ps, "position", Field(POSITION_SCHEMA, Required), position, fmt);
    sh, ps := sh["position" := Field(POSITION_SCHEMA, Required)], ps["position" := position];
    FieldsReturnThemselvesAdd(sh, ps, "enrichment", Field(ENRICHMENT_SCHEMA, Required), enrichment, fmt);
    sh, ps := sh["enrichment" := Field(ENRICHMENT_SCHEMA, Required)], ps["enrichment" := enrichment];
    FieldsReturnThemselvesAdd(sh, ps, "persona_matching", Field(PERSONA_MATCHING_SCHEMA, Required), personaMatching, fmt);
    sh, ps := sh["persona_matching" := Field(PERSONA_MATCHING_SCHEMA, Required)], ps["persona_matching" := personaMatching];
  }

  lemma FreshRecordLists(sh0: map<string, Field>, ps0: map<string, Json>, fmt: FormatCheck)
    requires FieldsReturnThemselves(sh0, ps0, fmt)
    ensures FieldsReturnThemselves(
      sh0["campaign" := Field(SNullable(CAMPAIGN_SCHEMA), Required)]["approvals" := Field(SArray(APPROVAL_RECORD_SCHEMA), Required)]["responses" := Field(SArray(RESPONSE_RECORD_SCHEMA), Required)]["escalations" := Field(SArray(ESCALATION_RECORD_SCHEMA), Required)],
      ps0["campaign" := JNull]["approvals" := JArr([])]["responses" := JArr([])]["escalations" := JArr([])], fmt)
  {
    NullAccepted(CAMPAIGN_SCHEMA, fmt);
    EmptyArrayAccepted(APPROVAL_RECORD_SCHEMA, fmt);
    EmptyArrayAccepted(RESPONSE_RECORD_SCHEMA, fmt);
    EmptyArrayAccepted(ESCALATION_RECORD_SCHEMA, fmt);
    var sh, ps := sh0, ps0;
    FieldsReturnThemselvesAdd(sh, ps, "campaign", Field(SNullable(CAMPAIGN_SCHEMA), Required), JNull, fmt);
    sh, ps := sh["campaign" := Field(SNullable(CAMPAIGN_SCHEMA), Required)], ps["campaign" := JNull];
    FieldsReturnThemselvesAdd(sh, ps, "approvals", Field(SArray(APPROVAL_RECORD_SCHEMA), Required), JArr([]), fmt);
    sh, ps := sh["approvals" := Field(SArray(APPROVAL_RECORD_SCHEMA), Required)], ps["approvals" := JArr([])];
    FieldsReturnThemselvesAdd(sh, ps, "responses", Field(SArray(RESPONSE_RECORD_SCHEMA), Required), JArr([]), fmt);
    sh, ps := sh["responses" := Field(SArray(RESPONSE_RECORD_SCHEMA), Required)], ps["responses" := JArr([])];
    FieldsReturnThemselvesAdd(sh, ps, "escalations", Field(SArray(ESCALATION_RECORD_SCHEMA), Required), JArr([]), fmt);
    sh, ps := sh["escalations" := Field(SArray(ESCALATION_RECORD_SCHEMA), Required)], ps["escalations" := JArr([])];
  }

  lemma FreshRecordClosing(sh0: map<string, Field>, ps0: map<string, Json>, snooze: Json, outcome: Json, eventsLog: Json, fmt: FormatCheck)
    requires FieldsReturnThemselves(sh0, ps0, fmt)
    requires Parse(SNOOZE_SCHEMA, snooze, fmt) == Ok(snooze)
    requires Parse(OUTCOME_SCHEMA, outcome, fmt) == Ok(outcome)
    requires Parse(SArray(EVENT_LOG_ENTRY_SCHEMA), eventsLog, fmt) == Ok(eventsLog)
    ensures FieldsReturnThemselves(
      sh0["snooze" := Field(SNOOZE_SCHEMA, Required)]["rejection" := Field(SNullable(REJECTION_RECORD_SCHEMA), Required)]["outcome" := Field(OUTCOME_SCHEMA, Required)]["events_log" := Field(SArray(EVENT_LOG_ENTRY_SCHEMA), Required)],
      ps0["snooze" := snooze]["rejection" := JNull]["outcome" := outcome]["events_log" := eventsLog], fmt)
  {
    NullAccepted(REJECTION_RECORD_SCHEMA, fmt);
    var sh, ps := sh0, ps0;
    FieldsReturnThemselvesAdd(sh, ps, "snooze", Field(SNOOZE_SCHEMA, Required), snooze, fmt);
    sh, ps := sh["snooze" := Field(SNOOZE_SCHEMA, Required)], ps["snooze" := snooze];
    FieldsReturnThemselvesAdd(sh, ps, "rejection", Field(SNullable(REJECTION_RECORD_SCHEMA), Required), JNull, fmt);
    sh, ps := sh["rejection" := Field(SNullable(REJECTION_RECORD_SCHEMA), Required)], ps["rejection" := JNull];
    FieldsReturnThemselvesAdd(sh, ps, "outcome", Field(OUTCOME_SCHEMA, Required), outcome, fmt);
    sh, ps := sh["outcome" := Field(OUTCOME_SCHEMA, Required)], ps["outcome" := outcome];
    FieldsReturnThemselvesAdd(sh, ps, "events_log", Field(SArray(EVENT_LOG_ENTRY_SCHEMA), Required), eventsLog, fmt);
    sh, ps := sh["events_log" := Field(SArray(EVENT_LOG_ENTRY_SCHEMA), Required)], ps["events_log" := eventsLog];
  }

  /** `StatusYamlSchema`'s shape, built up one section at a time. */
  lemma StatusShapeInOrder()
    ensures map[]["meta" := Field(META_SCHEMA, Required)]["position" := Field(POSITION_SCHEMA, Required)]["enrichment" := Field(ENRICHMENT_SCHEMA, Required)]["persona_matching" := Field(PERSONA_MATCHING_SCHEMA, Required)]
        ["campaign" := Field(SNullable(CAMPAIGN_SCHEMA), Required)]["approvals" := Field(SArray(APPROVAL_RECORD_SCHEMA), Required)]["responses" := Field(SArray(RESPONSE_RECORD_SCHEMA), Required)]["escalations" := Field(SArray(ESCALATION_RECORD_SCHEMA), Required)]
        ["snooze" := Field(SNOOZE_SCHEMA, Required)]["rejection" := Field(SNullable(REJECTION_RECORD_SCHEMA), Required)]["outcome" := Field(OUTCOME_SCHEMA, Required)]["events_log" := Field(SArray(EVENT_LOG_ENTRY_SCHEMA), Required)] == STATUS_YAML_SCHEMA.shape
  {
  }

  /** A fresh record's sections, built up one at a time. */
  lemma FreshRecordInOrder(meta: Json, position: Json, enrichment: Json, personaMatching: Json,
                           snooze: Json, outcome: Json, eventsLog: Json)
    ensures map[]["meta" := meta]["position" := position]["enrichment" := enrichment]["persona_matching" := personaMatching]
        ["campaign" := JNull]["approvals" := JArr([])]["responses" := JArr([])]["escalations" := JArr([])]
        ["snooze" := snooze]["rejection" := JNull]["outcome" := outcome]["events_log" := eventsLog] == FreshRecord(meta, position, enrichment, personaMatching, snooze, outcome, eventsLog).props
  {
  }

  /** A fresh record passes `StatusYamlSchema` unchanged once each of its
      sections does. */
  lemma FreshRecordAccepted(meta: Json, position: Json, enrichment: Json, personaMatching: Json,
                            snooze: Json, outcome: Json, eventsLog: Json, fmt: FormatCheck)
    requires Parse(META_SCHEMA, meta, fmt) == Ok(meta)
    requires Parse(POSITION_SCHEMA, position, fmt) == Ok(position)
    requires Parse(ENRICHMENT_SCHEMA, enrichment, fmt) == Ok(enrichment)
    requires Parse(PERSONA_MATCHING_SCHEMA, personaMatching, fmt) == Ok(personaMatching)
    requires Parse(SNOOZE_SCHEMA, snooze, fmt) == Ok(snooze)
    requires Parse(OUTCOME_SCHEMA, outcome, fmt) == Ok(outcome)
    requires Parse(SArray(EVENT_LOG_ENTRY_SCHEMA), eventsLog, fmt) == Ok(eventsLog)
    ensures var r := FreshRecord(meta, position, enrichment, personaMatching, snooze, outcome, eventsLog);
      Parse(STATUS_YAML_SCHEMA, r, fmt) == Ok(r)
  {
    var r := FreshRecord(meta, position, enrichment, personaMatching, snooze, outcome, eventsLog);
    var sh: map<string, Field> := map[];
    var ps: map<string, Json> := map[];
    FreshRecordSections(sh, ps, meta, position, enrichment, personaMatching, fmt);
    sh, ps := sh["meta" := Field(META_SCHEMA, Required)]["position" := Field(POSITION_SCHEMA, Required)]["enrichment" := Field(ENRICHMENT_SCHEMA, Required)]["persona_matching" := Field(PERSONA_MATCHING_SCHEMA, Required)],
      ps["meta" := meta]["position" := position]["enrichment" := enrichment]["persona_matching" := personaMatching];
    FreshRecordLists(sh, ps, fmt);
    sh, ps := sh["campaign" := Field(SNullable(CAMPAIGN_SCHEMA), Required)]["approvals" := Field(SArray(APPROVAL_RECORD_SCHEMA), Required)]["responses" := Field(SArray(RESPONSE_RECORD_SCHEMA), Required)]["escalations" := Field(SArray(ESCALATION_RECORD_SCHEMA), Required)],
      ps["campaign" := JNull]["approvals" := JArr([])]["responses" := JArr([])]["escalations" := JArr([])];
    FreshRecordClosing(sh, ps, snooze, outcome, eventsLog, fmt);
    sh, ps := sh["snooze" := Field(SNOOZE_SCHEMA, Required)]["rejection" := Field(SNullable(REJECTION_RECORD_SCHEMA), Required)]["outcome" := Field(OUTCOME_SCHEMA, Required)]["events_log" := Field(SArray(EVENT_LOG_ENTRY_SCHEMA), Required)],
      ps["snooze" := snooze]["rejection" := JNull]["outcome" := outcome]["events_log" := eventsLog];
    StatusShapeInOrder();
    FreshRecordInOrder(meta, position, enrichment, personaMatching, snooze, outcome, eventsLog);
    ObjectFieldsReturnThemselves(STATUS_YAML_SCHEMA, r, fmt);
  }

  /** A fresh record whose meta section is rejected is rejected. */
  lemma FreshRecordRejected(meta: Json, position: Json, enrichment: Json, personaMatching: Json,
                            snooze: Json, outcome: Json, eventsLog: Json, fmt: FormatCheck)
    requires Parse(META_SCHEMA, meta, fmt).Invalid?
    ensures Parse(STATUS_YAML_SCHEMA, FreshRecord(meta, position, enrichment, personaMatching, snooze, outcome, eventsLog), fmt).Invalid?
  {
    ObjectRejects(STATUS_YAML_SCHEMA, FreshRecord(meta, position, enrichment, personaMatching, snooze, outcome, eventsLog), "meta", fmt);
  }

  /** With valid ids and time, the initial record passes `StatusYamlSchema`
      and parsing it changes nothing. */
  lemma InitialRecordAccepted(leadId: string, organizationId: string, capturedUrl: string, now: string, fmt: FormatCheck)
    requires fmt(Uuid, leadId) && fmt(Uuid, organizationId) && fmt(DateTime, now)
    ensures var r := CreateInitialStatusYaml(leadId, organizationId, capturedUrl, now);
      Parse(STATUS_YAML_SCHEMA, r, fmt) == Ok(r)
  {
    InitialMetaAccepted(leadId, organizationId, now, fmt);
    IngestedEntryAccepted(capturedUrl, now, fmt);
    SingletonArrayAccepted(EVENT_LOG_ENTRY_SCHEMA, IngestedEntry(capturedUrl, now), fmt);
    InitialPositionAccepted(fmt);
    InitialEnrichmentAccepted(fmt);
    InitialPersonaMatchingAccepted(fmt);
    InitialSnoozeAccepted(fmt);
    InitialOutcomeAccepted(fmt);
    FreshRecordAccepted(InitialMeta(leadId, organizationId, now), INITIAL_POSITION, INITIAL_ENRICHMENT,
      INITIAL_PERSONA_MATCHING, INITIAL_SNOOZE, INITIAL_OUTCOME, JArr([IngestedEntry(capturedUrl, now)]), fmt);
  }

  /** The record `createInitialStatusYaml` builds passes `StatusYamlSchema`
      exactly when both ids are UUIDs and `now` is a datetime, and parsing
      it then changes nothing. */
  lemma InitialRecordValid(leadId: string, organizationId: string, capturedUrl: string, now: string, fmt: FormatCheck)
    ensures var r := CreateInitialStatusYaml(leadId, organizationId, capturedUrl, now);
      && (Parse(STATUS_YAML_SCHEMA, r, fmt).Ok? <==> fmt(Uuid, leadId) && fmt(Uuid, organizationId) && fmt(DateTime, now))
      && (Parse(STATUS_YAML_SCHEMA, r, fmt).Ok? ==> Parse(STATUS_YAML_SCHEMA, r, fmt) == Ok(r))
  {
    var r := CreateInitialStatusYaml(leadId, organizationId, capturedUrl, now);
    if fmt(Uuid, leadId) && fmt(Uuid, organizationId) && fmt(DateTime, now) {
      InitialRecordAccepted(leadId, organizationId, capturedUrl, now, fmt);
    } else {
      InitialMetaAccepted(leadId, organizationId, now, fmt);
      FreshRecordRejected(InitialMeta(leadId, organizationId, now), INITIAL_POSITION, INITIAL_ENRICHMENT,
        INITIAL_PERSONA_MATCHING, INITIAL_SNOOZE, INITIAL_OUTCOME, JArr([IngestedEntry(capturedUrl, now)]), fmt);
    }
  }

  /** A snooze section of a lead that is not snoozed and never was. */
  predicate NeverSnoozed(sn: Json)
  {
    && Get(sn, "status") == Some(JStr("active"))
    && Get(sn, "snoozed_at") == Some(JNull) && Get(sn, "snoozed_until") == Some(JNull)
    && Get(sn, "reason") == Some(JNull) && Get(sn, "snoozed_by") == Some(JNull)
    && Get(sn, "resume_at_phase") == Some(JNull)
  }

  /** The record of a lead nobody has acted on yet: no campaign, approval,
      response, escalation or rejection, no persona evaluated, never
      snoozed, and the outcome still open. */
  predicate Untouched(r: Json)
  {
    && Get(r, "campaign") == Some(JNull)
    && Get(r, "rejection") == Some(JNull)
    && Get(r, "approvals") == Some(JArr([]))
    && Get(r, "responses") == Some(JArr([]))
    && Get(r, "escalations") == Some(JArr([]))
    && (var pm := Get(r, "persona_matching");
        pm.Some? && Get(pm.value, "evaluated_personas") == Some(JArr([])))
    && (var sn := Get(r, "snooze"); sn.Some? && NeverSnoozed(sn.value))
    && (var oc := Get(r, "outcome"); oc.Some? && Get(oc.value, "status") == Some(JStr("in_progress")))
  }

  lemma InitialSnoozeNeverSnoozed()
    ensures NeverSnoozed(INITIAL_SNOOZE)
  {
  }

  // What each key of a fresh record holds, in two lemmas to keep each proof
  // small.

  lemma FreshRecordFrontHeld(meta: Json, position: Json, enrichment: Json, personaMatching: Json,
                             snooze: Json, outcome: Json, eventsLog: Json)
    ensures var r := FreshRecord(meta, position, enrichment, personaMatching, snooze, outcome, eventsLog);
      && Get(r, "meta") == Some(meta) && Get(r, "position") == Some(position)
      && Get(r, "enrichment") == Some(enrichment)
  {
  }

  lemma FreshRecordBackHeld(meta: Json, position: Json, enrichment: Json, personaMatching: Json,
                            snooze: Json, outcome: Json, eventsLog: Json)
    ensures var r := FreshRecord(meta, position, enrichment, personaMatching, snooze, outcome, eventsLog);
      && Get(r, "persona_matching") == Some(personaMatching)
      && Get(r, "snooze") == Some(snooze) && Get(r, "outcome") == Some(outcome)
      && Get(r, "events_log") == Some(eventsLog)
  {
  }

  lemma FreshRecordSectionsHeld(meta: Json, position: Json, enrichment: Json, personaMatching: Json,
                                snooze: Json, outcome: Json, eventsLog: Json)
    ensures var r := FreshRecord(meta, position, enrichment, personaMatching, snooze, outcome, eventsLog);
      && Get(r, "meta") == Some(meta) && Get(r, "position") == Some(position)
      && Get(r, "enrichment") == Some(enrichment)
      && Get(r, "persona_matching") == Some(personaMatching)
      && Get(r, "snooze") == Some(snooze) && Get(r, "outcome") == Some(outcome)
      && Get(r, "events_log") == Some(eventsLog)
  {
    FreshRecordFrontHeld(meta, position, enrichment, personaMatching, snooze, outcome, eventsLog);
    FreshRecordBackHeld(meta, position, enrichment, personaMatching, snooze, outcome, eventsLog);
  }

  lemma FreshRecordEmptyHeld(meta: Json, position: Json, enrichment: Json, personaMatching: Json,
                             snooze: Json, outcome: Json, eventsLog: Json)
    ensures var r := FreshRecord(meta, position, enrichment, personaMatching, snooze, outcome, eventsLog);
      && Get(r, "campaign") == Some(JNull) && Get(r, "rejection") == Some(JNull)
      && Get(r, "approvals") == Some(JArr([])) && Get(r, "responses") == Some(JArr([]))
      && Get(r, "escalations") == Some(JArr([]))
  {
  }

  /** A fresh record is untouched whenever its persona, snooze and outcome
      sections start out empty, never snoozed and open. */
  lemma FreshRecordUntouched(meta: Json, position: Json, enrichment: Json, personaMatching: Json,
                             snooze: Json, outcome: Json, eventsLog: Json)
    requires Get(personaMatching, "evaluated_personas") == Some(JArr([]))
    requires NeverSnoozed(snooze)
    requires Get(outcome, "status") == Some(JStr("in_progress"))
    ensures Untouched(FreshRecord(meta, position, enrichment, personaMatching, snooze, outcome, eventsLog))
  {
    FreshRecordSectionsHeld(meta, position, enrichment, personaMatching, snooze, outcome, eventsLog);
    FreshRecordEmptyHeld(meta, position, enrichment, personaMatching, snooze, outcome, eventsLog);
  }

  lemma InitialSectionsOpen()
    ensures Get(INITIAL_PERSONA_MATCHING, "evaluated_personas") == Some(JArr([]))
    ensures Get(INITIAL_OUTCOME, "status") == Some(JStr("in_progress"))
  {
  }

  /** A fresh lead's record is untouched (lines 284-312). */
  lemma InitialRecordUntouched(leadId: string, organizationId: string, capturedUrl: string, now: string)
    ensures Untouched(CreateInitialStatusYaml(leadId, organizationId, capturedUrl, now))
  {
    InitialSnoozeNeverSnoozed();
    InitialSectionsOpen();
    FreshRecordUntouched(InitialMeta(leadId, organizationId, now), INITIAL_POSITION, INITIAL_ENRICHMENT,
      INITIAL_PERSONA_MATCHING, INITIAL_SNOOZE, INITIAL_OUTCOME, JArr([IngestedEntry(capturedUrl, now)]));
  }

  /** The meta section of a fresh record carries the two ids and was
      created and last updated at `now`, in version 1 (lines 263-269). */
  lemma InitialMetaContents(leadId: string, organizationId: string, now: string)
    ensures var meta := InitialMeta(leadId, organizationId, now);
      && Get(meta, "lead_id") == Some(JStr(leadId))
      && Get(meta, "organization_id") == Some(JStr(organizationId))
      && Get(meta, "created_at") == Some(JStr(now))
      && Get(meta, "updated_at") == Get(meta, "created_at")
      && Get(meta, "version") == Some(JNum(1.0))
  {
  }

  /** The log's one entry records the ingestion at `now` of the captured
      page (lines 313-319). */
  lemma IngestedEntryContents(capturedUrl: string, now: string)
    ensures var e := IngestedEntry(capturedUrl, now);
      && Get(e, "event") == Some(JStr("lead.ingested"))
      && Get(e, "timestamp") == Some(JStr(now))
      && Get(e, "data") == Some(JObj(map["captured_url" := JStr(capturedUrl)]))
  {
  }

  /** A fresh record has exactly the twelve sections of `StatusYamlSchema`. */
  lemma FreshRecordKeys(meta: Json, position: Json, enrichment: Json, personaMatching: Json,
                        snooze: Json, outcome: Json, eventsLog: Json)
    ensures FreshRecord(meta, position, enrichment, personaMatching, snooze, outcome, eventsLog).props.Keys ==
      {"meta", "position", "enrichment", "persona_matching", "campaign", "approvals",
       "responses", "escalations", "snooze", "rejection", "outcome", "events_log"}
  {
  }

  /** The sections of a fresh lead's record that no agent has filled yet
      (lines 276-312): the record has exactly the twelve sections, enrichment
      and persona matching are pending with nothing found, the lead was never
      snoozed and the outcome is open. */
  lemma InitialSectionsContents(leadId: string, organizationId: string, capturedUrl: string, now: string)
    ensures var r := CreateInitialStatusYaml(leadId, organizationId, capturedUrl, now);
      && r.JObj?
      && r.props.Keys == {"meta", "position", "enrichment", "persona_matching", "campaign", "approvals",
                          "responses", "escalations", "snooze", "rejection", "outcome", "events_log"}
      && Get(r, "enrichment") == Some(JObj(map[
           "status" := JStr("pending"),
           "source_webhook" := JStr("rb2b"),
           "firecrawl" := JNull,
           "clay" := JNull,
           "completed_at" := JNull,
           "failure_reason" := JNull]))
      && Get(r, "persona_matching") == Some(JObj(map[
           "status" := JStr("pending"),
           "evaluated_personas" := JArr([]),
           "matched_persona_id" := JNull,
           "matched_persona_name" := JNull,
           "confidence_score" := JNull,
           "agent_reasoning" := JNull,
           "completed_at" := JNull]))
      && Get(r, "snooze") == Some(JObj(map[
           "status" := JStr("active"),
           "snoozed_at" := JNull,
           "snoozed_until" := JNull,
           "reason" := JNull,
           "snoozed_by" := JNull,
           "resume_at_phase" := JNull]))
      && Get(r, "outcome") == Some(JObj(map[
           "status" := JStr("in_progress"),
           "reason" := JNull,
           "meeting_id" := JNull,
           "meeting_datetime" := JNull,
           "completed_at" := JNull]))
  {
    FreshRecordKeys(InitialMeta(leadId, organizationId, now), INITIAL_POSITION, INITIAL_ENRICHMENT,
      INITIAL_PERSONA_MATCHING, INITIAL_SNOOZE, INITIAL_OUTCOME, JArr([IngestedEntry(capturedUrl, now)]));
    FreshRecordSectionsHeld(InitialMeta(leadId, organizationId, now), INITIAL_POSITION, INITIAL_ENRICHMENT,
      INITIAL_PERSONA_MATCHING, INITIAL_SNOOZE, INITIAL_OUTCOME, JArr([IngestedEntry(capturedUrl, now)]));
  }

  /** What a fresh lead's record says about the lead (lines 263-275,
      284-319): it carries the two ids, was created and last updated at
      `now` in version 1, waits in the ingestion phase for enrichment to
      start, is untouched, and its log holds the one ingestion event, stamped
      with the creation time and naming the captured page. */
  lemma InitialRecordContents(leadId: string, organizationId: string, capturedUrl: string, now: string)
    ensures var r := CreateInitialStatusYaml(leadId, organizationId, capturedUrl, now);
      && Get(r, "meta").Some? && Get(r, "events_log").Some?
      && (var meta := Get(r, "meta").value;
          var log := Get(r, "events_log").value;
          && Get(meta, "lead_id") == Some(JStr(leadId))
          && Get(meta, "organization_id") == Some(JStr(organizationId))
          && Get(meta, "created_at") == Some(JStr(now))
          && Get(meta, "updated_at") == Get(meta, "created_at")
          && Get(meta, "version") == Some(JNum(1.0))
          && Get(r, "position") == Some(JObj(map[
               "current_phase" := JStr("ingestion"),
               "current_state" := JStr("ingested"),
               "current_step" := JNull,
               "next_event_expected" := JStr("enrichment.started")]))
          && Untouched(r)
          && log.JArr? && |log.items| == 1
          && Get(log.items[0], "event") == Some(JStr("lead.ingested"))
          && Get(log.items[0], "timestamp") == Get(meta, "created_at")
          && Get(log.items[0], "data") == Some(JObj(map["captured_url" := JStr(capturedUrl)])))
  {
    FreshRecordSectionsHeld(InitialMeta(leadId, organizationId, now), INITIAL_POSITION, INITIAL_ENRICHMENT,
      INITIAL_PERSONA_MATCHING, INITIAL_SNOOZE, INITIAL_OUTCOME, JArr([IngestedEntry(capturedUrl, now)]));
    InitialMetaContents(leadId, organizationId, now);
    IngestedEntryContents(capturedUrl, now);
    InitialRecordUntouched(leadId, organizationId, capturedUrl, now);
  }
}
