/** What the reply drafter agent returns
    (workspace/done/kringle/schemas/reply-drafter-output.ts): a drafted reply
    to a lead's question, with the strategy it follows. */
module ReplyDrafterOutput {
  import opened Json
  import opened Zod

  const QUESTION_TYPES := ["product_differentiation", "product_service", "process_next_steps",
                           "clarifying", "interest_signaling", "unclear", "other"]

  const RESPONSE_STRATEGIES := ["educate_then_soft_cta", "direct_answer", "clarify_question",
                                "acknowledge_and_redirect", "provide_resource"]

  /** The longest preview, in characters. */
  const PREVIEW_MAX := 500

  /** `ReplyDrafterOutputSchema` (lines 3-39). */
  const REPLY_DRAFTER_OUTPUT_SCHEMA := SObject(map[
    "success" := Field(SBool, Required),
    "reply_drafted" := Field(SBool, Required),
    "draft_path" := Field(SString([]), Required),
    "subject" := Field(SString([]), Required),
    "html_body" := Field(SString([]), Optional),
    "text_body" := Field(SString([]), Optional),
    "body_preview" := Field(SString([MaxLen(PREVIEW_MAX)]), Required),
    "word_count" := Field(SNumber([IsInt, Positive]), Required),
    "question_type" := Field(SEnum(QUESTION_TYPES), Required),
    "response_strategy" := Field(SEnum(RESPONSE_STRATEGIES), Required),
    "error" := Field(SString([]), Optional)
  ])

  /** The keys an output may leave out. */
  const OPTIONAL_KEYS := ["html_body", "text_body", "error"]

  /** Every declared key other than the two bodies and the error is
      required. */
  lemma ReplyKeysSplit(key: string)
    requires key in REPLY_DRAFTER_OUTPUT_SCHEMA.shape
    ensures key in OPTIONAL_KEYS <==> REPLY_DRAFTER_OUTPUT_SCHEMA.shape[key].presence.Optional?
    ensures key !in OPTIONAL_KEYS <==> REPLY_DRAFTER_OUTPUT_SCHEMA.shape[key].presence.Required?
  {
    assert key in {"success", "reply_drafted", "draft_path", "subject", "html_body", "text_body",
                   "body_preview", "word_count", "question_type", "response_strategy", "error"};
  }

  /** Dropping a key from an accepted output keeps it accepted exactly when
      the key is `html_body`, `text_body` or `error` (lines 4-38). */
  lemma ReplyKeyNeeded(j: Json, key: string, fmt: FormatCheck)
    requires Parse(REPLY_DRAFTER_OUTPUT_SCHEMA, j, fmt).Ok? && key in REPLY_DRAFTER_OUTPUT_SCHEMA.shape
    ensures j.JObj?
    ensures Parse(REPLY_DRAFTER_OUTPUT_SCHEMA, JObj(j.props - {key}), fmt).Ok? <==> key in OPTIONAL_KEYS
  {
    ReplyKeysSplit(key);
    ObjectWithout(REPLY_DRAFTER_OUTPUT_SCHEMA, j, key, fmt);
  }

  /** The preview holds at most 500 characters and the word count is a
      positive whole number (lines 16-17). */
  lemma ReplyBounds(j: Json, fmt: FormatCheck)
    requires Parse(REPLY_DRAFTER_OUTPUT_SCHEMA, j, fmt).Ok?
    ensures j.JObj? && StrAt(j.props, "body_preview") && |j.props["body_preview"].s| <= PREVIEW_MAX
    ensures "word_count" in j.props && IntAtLeast(j.props["word_count"], 1)
  {
    KeptOrDefaulted(REPLY_DRAFTER_OUTPUT_SCHEMA, j, "body_preview", fmt);
    KeptOrDefaulted(REPLY_DRAFTER_OUTPUT_SCHEMA, j, "word_count", fmt);
    MaxLenAccepted(PREVIEW_MAX, j.props["body_preview"], fmt);
    PositiveIntAccepted(j.props["word_count"], fmt);
  }

  /** The question is one of seven kinds and the strategy one of five
      (lines 20-35). */
  lemma ReplyStrategyClosed(j: Json, fmt: FormatCheck)
    requires Parse(REPLY_DRAFTER_OUTPUT_SCHEMA, j, fmt).Ok?
    ensures j.JObj? && "question_type" in j.props && OneOf(j.props["question_type"], QUESTION_TYPES)
    ensures "response_strategy" in j.props && OneOf(j.props["response_strategy"], RESPONSE_STRATEGIES)
    ensures |QUESTION_TYPES| == 7 && |RESPONSE_STRATEGIES| == 5
  {
    KeptOrDefaulted(REPLY_DRAFTER_OUTPUT_SCHEMA, j, "question_type", fmt);
    KeptOrDefaulted(REPLY_DRAFTER_OUTPUT_SCHEMA, j, "response_strategy", fmt);
  }
}
