/** What the sample product's processor agent returns
    (context/manifest/examples/sample-product/schemas/processor-output.ts):
    whether it succeeded, an error message, and the findings of its
    analysis. */
module ProcessorOutput {
  import opened Json
  import opened Zod

  /** `ProcessorOutputSchema` (lines 16-26); the `.describe` texts carry no
      behaviour. */
  const PROCESSOR_OUTPUT_SCHEMA := SObject(map[
    "success" := Field(SBool, Required),
    "error" := Field(SString([]), Optional),
    "summary" := Field(SString([]), Optional),
    "themes" := Field(SArray(SString([])), Optional),
    "insights" := Field(SArray(SString([])), Optional),
    "concerns" := Field(SArray(SString([])), Optional)
  ])

  /** An object with a boolean `success`, where `error` and `summary` are
      strings and `themes`, `insights` and `concerns` lists of strings
      whenever they are present (lines 18-25). */
  predicate ProcessorShaped(j: Json)
  {
    && j.JObj?
    && BoolAt(j.props, "success")
    && ("error" in j.props ==> j.props["error"].JStr?)
    && ("summary" in j.props ==> j.props["summary"].JStr?)
    && ("themes" in j.props ==> StrArray(j.props["themes"]))
    && ("insights" in j.props ==> StrArray(j.props["insights"]))
    && ("concerns" in j.props ==> StrArray(j.props["concerns"]))
  }

  lemma ProcessorAcceptedIsShaped(j: Json, fmt: FormatCheck)
    requires Parse(PROCESSOR_OUTPUT_SCHEMA, j, fmt).Ok?
    ensures ProcessorShaped(j)
  {
    KeptOrDefaulted(PROCESSOR_OUTPUT_SCHEMA, j, "success", fmt);
    KeptOrDefaulted(PROCESSOR_OUTPUT_SCHEMA, j, "error", fmt);
    KeptOrDefaulted(PROCESSOR_OUTPUT_SCHEMA, j, "summary", fmt);
    KeptOrDefaulted(PROCESSOR_OUTPUT_SCHEMA, j, "themes", fmt);
    KeptOrDefaulted(PROCESSOR_OUTPUT_SCHEMA, j, "insights", fmt);
    KeptOrDefaulted(PROCESSOR_OUTPUT_SCHEMA, j, "concerns", fmt);
    var m := j.props;
    if "themes" in m { StringArrayAccepted(m["themes"], fmt); }
    if "insights" in m { StringArrayAccepted(m["insights"], fmt); }
    if "concerns" in m { StringArrayAccepted(m["concerns"], fmt); }
  }

  lemma ProcessorShapedIsAccepted(j: Json, fmt: FormatCheck)
    requires ProcessorShaped(j)
    ensures Parse(PROCESSOR_OUTPUT_SCHEMA, j, fmt).Ok?
  {
    var m := j.props;
    if "themes" in m { StringArrayAccepted(m["themes"], fmt); }
    if "insights" in m { StringArrayAccepted(m["insights"], fmt); }
    if "concerns" in m { StringArrayAccepted(m["concerns"], fmt); }
    forall k | k in PROCESSOR_OUTPUT_SCHEMA.shape ensures ParseField(PROCESSOR_OUTPUT_SCHEMA, k, m, fmt).Ok? {
      assert k in {"success", "error", "summary", "themes", "insights", "concerns"};
    }
  }

  /** An output is accepted exactly when it is `ProcessorShaped`. */
  lemma ProcessorAccepted(j: Json, fmt: FormatCheck)
    ensures Parse(PROCESSOR_OUTPUT_SCHEMA, j, fmt).Ok? <==> ProcessorShaped(j)
  {
    if Parse(PROCESSOR_OUTPUT_SCHEMA, j, fmt).Ok? {
      ProcessorAcceptedIsShaped(j, fmt);
    }
    if ProcessorShaped(j) {
      ProcessorShapedIsAccepted(j, fmt);
    }
  }

  /** Dropping a key from an accepted output keeps it accepted exactly when
      the key is not `success` (lines 18-25). */
  lemma ProcessorKeyNeeded(j: Json, key: string, fmt: FormatCheck)
    requires Parse(PROCESSOR_OUTPUT_SCHEMA, j, fmt).Ok? && key in PROCESSOR_OUTPUT_SCHEMA.shape
    ensures j.JObj?
    ensures Parse(PROCESSOR_OUTPUT_SCHEMA, JObj(j.props - {key}), fmt).Ok? <==> key != "success"
  {
    assert key in {"success", "error", "summary", "themes", "insights", "concerns"};
    ObjectWithout(PROCESSOR_OUTPUT_SCHEMA, j, key, fmt);
  }

  /** The findings are said to come only with success, but nothing enforces
      it: an accepted output stays accepted when it reports failure and
      carries a summary all the same. */
  lemma FailureWithSummary(j: Json, summary: string, fmt: FormatCheck)
    requires Parse(PROCESSOR_OUTPUT_SCHEMA, j, fmt).Ok?
    ensures j.JObj?
    ensures var k := JObj(j.props["success" := JBool(false)]["summary" := JStr(summary)]);
      Parse(PROCESSOR_OUTPUT_SCHEMA, k, fmt).Ok? && k.props["success"] == JBool(false) && "summary" in k.props
  {
    ObjectAcceptsReplaced(PROCESSOR_OUTPUT_SCHEMA, j, "success", JBool(false), fmt);
    ObjectAcceptsReplaced(PROCESSOR_OUTPUT_SCHEMA, JObj(j.props["success" := JBool(false)]), "summary", JStr(summary), fmt);
  }
}
