/** What the email drafter agent returns
    (workspace/done/kringle/schemas/email-drafter-output.ts): one drafted
    campaign email, ready for approval and sending. */
module EmailDrafterOutput {
  import opened Json
  import opened Zod
  import StatusYamlSchema

  const EMAIL_TYPES := ["initial_outreach", "reach_out_followup",
                        "eex_1", "eex_2", "eex_3", "eex_4", "eex_5",
                        "post_eex_initial", "post_eex_followup", "reply"]

  /** The longest preview, in characters. */
  const PREVIEW_MAX := 500

  /** `EmailDrafterOutputSchema` (lines 3-32). */
  const EMAIL_DRAFTER_OUTPUT_SCHEMA := SObject(map[
    "success" := Field(SBool, Required),
    "draft_path" := Field(SString([]), Required),
    "draft_version" := Field(SNumber([IsInt, Positive]), Required),
    "email_type" := Field(SEnum(EMAIL_TYPES), Required),
    "subject" := Field(SString([]), Required),
    "html_body" := Field(SString([]), Required),
    "text_body" := Field(SString([]), Optional),
    "body_preview" := Field(SString([MaxLen(PREVIEW_MAX)]), Required),
    "personalization_applied" := Field(SArray(SString([])), Required),
    "revision_incorporated" := Field(SBool, Optional),
    "error" := Field(SString([]), Optional)
  ])

  /** The keys a draft may leave out. */
  const OPTIONAL_KEYS := ["text_body", "revision_incorporated", "error"]

  /** Every declared key other than the plain-text body, the revision flag
      and the error is required. */
  lemma EmailKeysSplit(key: string)
    requires key in EMAIL_DRAFTER_OUTPUT_SCHEMA.shape
    ensures key in OPTIONAL_KEYS <==> EMAIL_DRAFTER_OUTPUT_SCHEMA.shape[key].presence.Optional?
    ensures key !in OPTIONAL_KEYS <==> EMAIL_DRAFTER_OUTPUT_SCHEMA.shape[key].presence.Required?
  {
    assert key in {"success", "draft_path", "draft_version", "email_type", "subject", "html_body",
                   "text_body", "body_preview", "personalization_applied", "revision_incorporated", "error"};
  }

  /** Dropping a key from an accepted draft keeps it accepted exactly when
      the key is `text_body`, `revision_incorporated` or `error`; the HTML
      body, the subject, the path and the personalisation list must be there
      (lines 4-31). */
  lemma EmailKeyNeeded(j: Json, key: string, fmt: FormatCheck)
    requires Parse(EMAIL_DRAFTER_OUTPUT_SCHEMA, j, fmt).Ok? && key in EMAIL_DRAFTER_OUTPUT_SCHEMA.shape
    ensures j.JObj?
    ensures Parse(EMAIL_DRAFTER_OUTPUT_SCHEMA, JObj(j.props - {key}), fmt).Ok? <==> key in OPTIONAL_KEYS
  {
    EmailKeysSplit(key);
    ObjectWithout(EMAIL_DRAFTER_OUTPUT_SCHEMA, j, key, fmt);
  }

  /** The draft version is a positive whole number, the preview holds at
      most 500 characters, and the personalisations are a list of strings
      (lines 8, 24, 27). */
  lemma EmailDraftBounds(j: Json, fmt: FormatCheck)
    requires Parse(EMAIL_DRAFTER_OUTPUT_SCHEMA, j, fmt).Ok?
    ensures j.JObj? && "draft_version" in j.props && IntAtLeast(j.props["draft_version"], 1)
    ensures StrAt(j.props, "body_preview") && |j.props["body_preview"].s| <= PREVIEW_MAX
    ensures "personalization_applied" in j.props && StrArray(j.props["personalization_applied"])
  {
    KeptOrDefaulted(EMAIL_DRAFTER_OUTPUT_SCHEMA, j, "draft_version", fmt);
    KeptOrDefaulted(EMAIL_DRAFTER_OUTPUT_SCHEMA, j, "body_preview", fmt);
    KeptOrDefaulted(EMAIL_DRAFTER_OUTPUT_SCHEMA, j, "personalization_applied", fmt);
    PositiveIntAccepted(j.props["draft_version"], fmt);
    MaxLenAccepted(PREVIEW_MAX, j.props["body_preview"], fmt);
    StringArrayAccepted(j.props["personalization_applied"], fmt);
  }

  /** The email type is one of the ten, the five engagement steps among
      them (lines 9-16). */
  lemma EmailTypeClosed(j: Json, fmt: FormatCheck)
    requires Parse(EMAIL_DRAFTER_OUTPUT_SCHEMA, j, fmt).Ok?
    ensures j.JObj? && "email_type" in j.props && OneOf(j.props["email_type"], EMAIL_TYPES)
    ensures |EMAIL_TYPES| == 10 && forall s | s in ["eex_1", "eex_2", "eex_3", "eex_4", "eex_5"] :: s in EMAIL_TYPES
  {
    KeptOrDefaulted(EMAIL_DRAFTER_OUTPUT_SCHEMA, j, "email_type", fmt);
  }

  // A draft's version and type can be recorded as they are in the status
  // record's email and approval entries.

  lemma DraftVersionRecordable(j: Json, fmt: FormatCheck)
    requires Parse(EMAIL_DRAFTER_OUTPUT_SCHEMA, j, fmt).Ok?
    ensures j.JObj? && "draft_version" in j.props
    ensures var v := j.props["draft_version"];
      && Parse(StatusYamlSchema.EMAIL_RECORD_SCHEMA.shape["draft_version"].schema, v, fmt) == Ok(v)
      && Parse(StatusYamlSchema.APPROVAL_RECORD_SCHEMA.shape["draft_version"].schema, v, fmt) == Ok(v)
  {
    KeptOrDefaulted(EMAIL_DRAFTER_OUTPUT_SCHEMA, j, "draft_version", fmt);
    assert StatusYamlSchema.EMAIL_RECORD_SCHEMA.shape["draft_version"].schema == SNumber([IsInt, Positive]);
    assert StatusYamlSchema.APPROVAL_RECORD_SCHEMA.shape["draft_version"].schema == SNumber([IsInt, Positive]);
  }

  lemma EmailTypeRecordable(j: Json, fmt: FormatCheck)
    requires Parse(EMAIL_DRAFTER_OUTPUT_SCHEMA, j, fmt).Ok?
    ensures j.JObj? && "email_type" in j.props
    ensures var t := j.props["email_type"];
      && Parse(StatusYamlSchema.EMAIL_RECORD_SCHEMA.shape["email_type"].schema, t, fmt) == Ok(t)
      && Parse(StatusYamlSchema.APPROVAL_RECORD_SCHEMA.shape["email_type"].schema, t, fmt) == Ok(t)
  {
    EmailTypeClosed(j, fmt);
    assert StatusYamlSchema.EMAIL_RECORD_SCHEMA.shape["email_type"].schema == SString([]);
    assert StatusYamlSchema.APPROVAL_RECORD_SCHEMA.shape["email_type"].schema == SString([]);
  }
}
