/** What the persona matcher agent returns
    (workspace/done/kringle/schemas/persona-matcher-output.ts): whether the
    lead matched a persona, which one and how confidently, and the score of
    every persona it weighed. */
module PersonaMatcherOutput {
  import opened Json
  import opened Zod
  import StatusYamlSchema

  /** `PersonaScoreSchema` (lines 3-8), declared anew in this file. */
  const PERSONA_SCORE_SCHEMA := SObject(map[
    "persona_id" := Field(SString([Format(Uuid)]), Required),
    "persona_name" := Field(SString([]), Required),
    "score" := Field(SNumber([Min(0.0), Max(1.0)]), Required),
    "passed_threshold" := Field(SBool, Required)
  ])

  const NO_MATCH_REASONS := ["no_match", "insufficient_data"]

  /** `PersonaMatcherOutputSchema` (lines 10-30). */
  const PERSONA_MATCHER_OUTPUT_SCHEMA := SObject(map[
    "success" := Field(SBool, Required),
    "matched" := Field(SBool, Required),
    "persona_id" := Field(SNullable(SString([Format(Uuid)])), Required),
    "persona_name" := Field(SNullable(SString([])), Required),
    "confidence_score" := Field(SNullable(SNumber([Min(0.0), Max(1.0)])), Required),
    "reason" := Field(SNullable(SEnum(NO_MATCH_REASONS)), Required),
    "scores" := Field(SArray(PERSONA_SCORE_SCHEMA), Required),
    "agent_reasoning" := Field(SString([]), Required),
    "error" := Field(SString([]), Optional)
  ])

  /** Dropping a key from an accepted output keeps it accepted exactly when
      the key is `error`: even the nullable fields must be present
      (lines 11-29). */
  lemma MatcherKeyNeeded(j: Json, key: string, fmt: FormatCheck)
    requires Parse(PERSONA_MATCHER_OUTPUT_SCHEMA, j, fmt).Ok? && key in PERSONA_MATCHER_OUTPUT_SCHEMA.shape
    ensures j.JObj?
    ensures Parse(PERSONA_MATCHER_OUTPUT_SCHEMA, JObj(j.props - {key}), fmt).Ok? <==> key == "error"
  {
    assert key in {"success", "matched", "persona_id", "persona_name", "confidence_score", "reason",
                   "scores", "agent_reasoning", "error"};
    ObjectWithout(PERSONA_MATCHER_OUTPUT_SCHEMA, j, key, fmt);
  }

  /** The matched persona is null or named by a UUID, its name null or a
      string, and the confidence null or in [0, 1] (lines 15-17). */
  lemma MatcherFieldsBounded(j: Json, fmt: FormatCheck)
    requires Parse(PERSONA_MATCHER_OUTPUT_SCHEMA, j, fmt).Ok?
    ensures j.JObj? && "persona_id" in j.props && "persona_name" in j.props && "confidence_score" in j.props
    ensures var p := j.props["persona_id"]; p.JNull? || (p.JStr? && fmt(Uuid, p.s))
    ensures var n := j.props["persona_name"]; n.JNull? || n.JStr?
    ensures var c := j.props["confidence_score"]; c.JNull? || UnitInterval(c)
  {
    KeptOrDefaulted(PERSONA_MATCHER_OUTPUT_SCHEMA, j, "persona_id", fmt);
    KeptOrDefaulted(PERSONA_MATCHER_OUTPUT_SCHEMA, j, "persona_name", fmt);
    KeptOrDefaulted(PERSONA_MATCHER_OUTPUT_SCHEMA, j, "confidence_score", fmt);
    var p := j.props["persona_id"];
    if !p.JNull? {
      FormatAccepted(Uuid, p, fmt);
    }
    var c := j.props["confidence_score"];
    if !c.JNull? {
      UnitAccepted(c, fmt);
    }
  }

  /** The reason for no match is null or one of the two (line 21). */
  lemma MatcherReasonClosed(j: Json, fmt: FormatCheck)
    requires Parse(PERSONA_MATCHER_OUTPUT_SCHEMA, j, fmt).Ok?
    ensures j.JObj? && "reason" in j.props
    ensures var r := j.props["reason"]; r.JNull? || OneOf(r, NO_MATCH_REASONS)
  {
    KeptOrDefaulted(PERSONA_MATCHER_OUTPUT_SCHEMA, j, "reason", fmt);
  }

  /** The score shape is field for field the status record's, so every entry
      of `scores` is accepted as an evaluated persona there, and every score
      lies in [0, 1] (lines 3-8, 25). */
  lemma ScoresStorable(j: Json, fmt: FormatCheck)
    requires Parse(PERSONA_MATCHER_OUTPUT_SCHEMA, j, fmt).Ok?
    ensures PERSONA_SCORE_SCHEMA == StatusYamlSchema.PERSONA_SCORE_SCHEMA
    ensures j.JObj? && "scores" in j.props && j.props["scores"].JArr?
    ensures var ss := j.props["scores"].items;
      forall i | 0 <= i < |ss| ::
        && Parse(StatusYamlSchema.PERSONA_SCORE_SCHEMA, ss[i], fmt).Ok?
        && ss[i].JObj? && "score" in ss[i].props && UnitInterval(ss[i].props["score"])
  {
    ParsedField(PERSONA_MATCHER_OUTPUT_SCHEMA, j, "scores", fmt);
    var ss := j.props["scores"].items;
    forall i | 0 <= i < |ss|
      ensures Parse(StatusYamlSchema.PERSONA_SCORE_SCHEMA, ss[i], fmt).Ok?
      ensures ss[i].JObj? && "score" in ss[i].props && UnitInterval(ss[i].props["score"])
    {
      assert Parse(PERSONA_SCORE_SCHEMA, ss[i], fmt).Ok?;
      StatusYamlSchema.PersonaScoreAccepted(ss[i], fmt);
    }
  }

  /** `matched` is not tied to the persona: an accepted output stays accepted
      when it claims a match but names no persona. */
  lemma MatchedWithoutPersona(j: Json, fmt: FormatCheck)
    requires Parse(PERSONA_MATCHER_OUTPUT_SCHEMA, j, fmt).Ok?
    ensures j.JObj?
    ensures var k := JObj(j.props["matched" := JBool(true)]["persona_id" := JNull]);
      Parse(PERSONA_MATCHER_OUTPUT_SCHEMA, k, fmt).Ok? && k.props["matched"] == JBool(true) && k.props["persona_id"] == JNull
  {
    ObjectAcceptsReplaced(PERSONA_MATCHER_OUTPUT_SCHEMA, j, "matched", JBool(true), fmt);
    ObjectAcceptsReplaced(PERSONA_MATCHER_OUTPUT_SCHEMA, JObj(j.props["matched" := JBool(true)]), "persona_id", JNull, fmt);
  }

  /** The persona's name may be null whatever else the output says: an
      accepted output stays accepted with a null `persona_name`. */
  lemma UnnamedPersonaAccepted(j: Json, fmt: FormatCheck)
    requires Parse(PERSONA_MATCHER_OUTPUT_SCHEMA, j, fmt).Ok?
    ensures j.JObj?
    ensures var k := JObj(j.props["persona_name" := JNull]);
      Parse(PERSONA_MATCHER_OUTPUT_SCHEMA, k, fmt).Ok? && k.props["persona_name"] == JNull
  {
    ObjectAcceptsReplaced(PERSONA_MATCHER_OUTPUT_SCHEMA, j, "persona_name", JNull, fmt);
  }
}
