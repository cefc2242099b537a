# agent-architect schemas in Dafny

This project models the structural validation of the agent-architect repository. That validation is written as zod schemas that turn an untyped document into a typed record. The model covers:

- the product manifest (`context/manifest-schema.ts`);
- the function and trigger catalogue, with its `detectPattern` helper (`plans/zzz-complete/nonagentic/examples/function-schema.ts`);
- the lead status record kept for each lead, with `createInitialStatusYaml` (`workspace/done/kringle/schemas/status-yaml-schema.ts`);
- the output contracts of six agents: the escalation handler, the sample processor, the reply drafter, the persona matcher, the email drafter and the response triager.

## How the model is built

- **`Json`** (`json.dfy`) is the untyped document: null, booleans, numbers as `real`, strings, arrays and objects. It also defines small predicates that name field shapes (`StrAt`, `OneOf`, `IntAtLeast`, `UnitInterval`, …).
- **`Zod`** (`zod.dfy`) is a schema language. It has one constructor per zod combinator the repository uses: object, array, record, union, enum, string, number, boolean, any, `.nullable()`, `.optional()`, `.optional().default(v)`, and the refinements `.int()`, `.positive()`, `.min`, `.max`, `.uuid()`, `.datetime()`, `.email()` and `.url()`. The interpreter `Parse(schema, doc, fmt)` plays the part of `safeParse`. It returns `Ok` with the normalised value or `Invalid`.
  - Objects drop keys they do not declare and fill in defaults only for keys that are absent.
  - A union returns what its first accepting alternative returns.
  - String formats are a parameter `fmt`.
- Each schema constant of the repository is a constant of type `Schema`, and each file is one module. Its properties are lemmas about `Parse` on that constant.
- Normalising twice is the same as normalising once (`Zod.ParseIdempotent`). This is proved for every schema whose unions cannot shadow each other, and the manifest is shown to be one (`ManifestSchema.ManifestWellFormed`).
- `createInitialStatusYaml` is a function of the two ids, the captured URL and `now`. The clock read becomes the parameter `now`.

## Model

| member | source | states |
|---|---|---|
| Zod.ParseIdempotent | context/manifest-schema.ts:53-197 | Parsing the output of a successful parse again returns that same output, for every well-formed schema: normalisation is idempotent |
| Zod.NormalisedIsValid | context/manifest-schema.ts:53-197 | A normalised document is accepted again by the same schema |
| Zod.FirstAccepted | plans/zzz-complete/nonagentic/examples/function-schema.ts:34-39 | When alternative k accepts a value and every earlier alternative rejects it, the union returns alternative k's result |
| Zod.ObjectOutputKeys | context/manifest-schema.ts:203-253 | An object's output holds only declared keys, so unknown keys are dropped |
| Zod.KeptOrDefaulted | context/manifest-schema.ts:55-56 | For a field without nested objects: a required key is present, a present value is accepted and kept, and an absent key with a default reads as the default |
| Zod.ObjectWithout | workspace/done/kringle/schemas/escalation-handler-output.ts:3-44 | Dropping a declared key without a default from an accepted object keeps it accepted exactly when the key is not required |
| Zod.ObjectAcceptsReplaced | workspace/done/kringle/schemas/escalation-handler-output.ts:3-44 | An accepted object stays accepted when one declared key gets another value its field accepts, since a `z.object` relates no key to another |
| Zod.FormatAccepted | workspace/done/kringle/schemas/status-yaml-schema.ts:18-21 | `z.string().uuid()` and the other format checks accept exactly the strings that `fmt` accepts for that format |
| Zod.MaxLenAccepted | workspace/done/kringle/schemas/reply-drafter-output.ts:16 | `z.string().max(n)` accepts exactly the strings of at most `n` characters |
| Zod.PositiveIntAccepted | workspace/done/kringle/schemas/status-yaml-schema.ts:22 | `z.number().int().positive()` accepts exactly the integers no smaller than 1 |
| Zod.NonNegativeIntAccepted | workspace/done/kringle/schemas/status-yaml-schema.ts:118 | `z.number().int().min(0)` accepts exactly the integers no smaller than 0 |
| Zod.UnitAccepted | workspace/done/kringle/schemas/status-yaml-schema.ts:80 | `z.number().min(0).max(1)` accepts exactly the numbers in [0, 1] |
| Zod.NullAccepted | workspace/done/kringle/schemas/status-yaml-schema.ts:239 | Every nullable schema accepts `null` and returns it |
| Zod.EmptyArrayAccepted | workspace/done/kringle/schemas/status-yaml-schema.ts:240-242 | Every array schema accepts the empty array and returns it |
| Zod.StringArrayAccepted | context/manifest/examples/sample-product/schemas/processor-output.ts:23 | `z.array(z.string())` accepts exactly the arrays of strings |
| ManifestSchema.ArtifactDefaults | context/manifest-schema.ts:53-57 | An artifact keeps its `file`; an absent `required` reads as true and an absent `persist_to` as `supabase_storage`, while given values are kept |
| ManifestSchema.ArtifactAccepted | context/manifest-schema.ts:53-57 | An artifact is accepted exactly when it has a string `file`, and any `required` is a boolean and any `persist_to` is one of the three stores |
| ManifestSchema.LimitsDefaults | context/manifest-schema.ts:100-105 | Absent limits become 50000 tokens, 50 tool calls, 300 seconds and 3 retries; given ones are kept; the output has exactly these four keys |
| ManifestSchema.LimitsAccepted | context/manifest-schema.ts:100-105 | A limits object is accepted exactly when each limit it gives is a number |
| ManifestSchema.WorkspaceDefaults | context/manifest-schema.ts:111-115 | An absent `cleanup` reads as `on_success` and an absent `snapshot_on_failure` as true; `base` is kept as given; the output cleanup is one of the three and the snapshot flag a boolean |
| ManifestSchema.AgentOptionalSections | context/manifest-schema.ts:121-134 | An agent without `limits` or `workspace` comes back without them; a present section comes back as its own schema normalises it |
| ManifestSchema.ColumnDefaults | context/manifest-schema.ts:165-171 | A column without `nullable` reads as nullable |
| ManifestSchema.TableDefaults | context/manifest-schema.ts:173-177 | A table without `rls` has row-level security on |
| ManifestSchema.DatabaseDefaults | context/manifest-schema.ts:179-182 | An absent `migrations_dir` reads as `supabase/migrations/`, and `tables` is required |
| ManifestSchema.LoggingDefaults | context/manifest-schema.ts:189-192 | Logging defaults to level `info` and format `json` |
| ManifestSchema.TracingDefaults | context/manifest-schema.ts:193-196 | Tracing defaults to enabled, with trace id field `trace_id` |
| ManifestSchema.ObservabilitySections | context/manifest-schema.ts:188-197 | An absent `logging` or `tracing` stays absent; a present one is normalised by its own schema |
| ManifestSchema.StateInAccepted | context/manifest-schema.ts:60 | `state_in` is accepted exactly when it is a string or an array of strings (the empty array included), and it is returned unchanged |
| ManifestSchema.ContractStates | context/manifest-schema.ts:59-70 | An accepted contract has `state_in` as one name or a list of names, exactly one string `state_out`, and a string `output_schema`; both state fields are kept as given |
| ManifestSchema.AgentModelClosed | context/manifest-schema.ts:76-94 | An agent's model and each subagent's model is haiku, sonnet or opus |
| ManifestSchema.DefaultModelClosed | context/manifest-schema.ts:224 | The default model in the Anthropic settings is haiku, sonnet or opus |
| ManifestSchema.EventFieldTypeClosed | context/manifest-schema.ts:23 | An event payload field's type is string, number or boolean |
| ManifestSchema.WebhookAuthClosed | context/manifest-schema.ts:140-148 | A webhook's auth is hmac, api_key, bearer or none; auth and `secret` are kept as given; the webhook stays accepted when its `secret` is dropped |
| ManifestSchema.SecretIndependent | context/manifest-schema.ts:143-144 | An accepted webhook stays accepted with any of the four auth methods and no `secret`, so an hmac or bearer webhook needs no secret |
| ManifestSchema.ManifestWellFormed | context/manifest-schema.ts:7-253 | The only union in the manifest, `state_in`, has alternatives that accept disjoint kinds of value, so no alternative shadows another |
| ManifestSchema.ManifestNormaliseIdempotent | context/manifest-schema.ts:203-253 | Normalising an accepted manifest again returns the same manifest, so the normalised manifest is valid and has every default filled in |
| FunctionSchema.DetectPattern | plans/zzz-complete/nonagentic/examples/function-schema.ts:83-88 | The result is always one of the four values of the `pattern` enum |
| FunctionSchema.DetectPatternPrecedence | plans/zzz-complete/nonagentic/examples/function-schema.ts:84-87 | The full classification: fan-in exactly when `wait_for` is present; cron exactly when `cron` is present and `wait_for` is not; routing exactly when `route_on` is present and neither `cron` nor `wait_for` is; simple exactly when none of the three is |
| FunctionSchema.DetectPatternLocal | plans/zzz-complete/nonagentic/examples/function-schema.ts:83-88 | Two triggers that agree on the presence of `wait_for`, `cron` and `route_on` get the same pattern |
| FunctionSchema.FanInAccepted | plans/zzz-complete/nonagentic/examples/function-schema.ts:12-17 | A fan-in trigger is accepted exactly when it has string `primary` and `correlation_key`, a string array `wait_for`, and any `timeout` is a string |
| FunctionSchema.RouteAccepted | plans/zzz-complete/nonagentic/examples/function-schema.ts:27-30 | A route is accepted exactly when it has a string `emit` and any `then` is a string |
| FunctionSchema.RoutingAlsoSimple | plans/zzz-complete/nonagentic/examples/function-schema.ts:8-32 | Every routing trigger is also accepted by the simple shape, which returns only its `event` |
| FunctionSchema.RoutingPattern | plans/zzz-complete/nonagentic/examples/function-schema.ts:24-32 | The routing shape's output is classified as routing |
| FunctionSchema.FanInPattern | plans/zzz-complete/nonagentic/examples/function-schema.ts:12-17 | The fan-in shape's output is classified as fan-in |
| FunctionSchema.CronPattern | plans/zzz-complete/nonagentic/examples/function-schema.ts:19-22 | The cron shape's output is classified as cron |
| FunctionSchema.SimplePattern | plans/zzz-complete/nonagentic/examples/function-schema.ts:8-10 | The simple shape's output is classified as simple |
| FunctionSchema.AsWrittenNeverRouting | plans/zzz-complete/nonagentic/examples/function-schema.ts:34-39 | With the union as written, no trigger that has been parsed is ever classified as routing |
| FunctionSchema.AsWrittenRoutingLost | plans/zzz-complete/nonagentic/examples/function-schema.ts:34-39 | A concrete routing trigger is classified as routing on its own keys, but the union as written turns it into the simple trigger `{event}` |
| FunctionSchema.OrderedTriggerWellFormed | plans/zzz-complete/nonagentic/examples/function-schema.ts:8-39 | Tried in the order routing, fan-in, cron, simple, each shape requires a key that every later shape does not declare |
| FunctionSchema.OrderedTriggerPattern | plans/zzz-complete/nonagentic/examples/function-schema.ts:34-39 | With the shapes tried most specific first, the pattern of the parsed trigger is routing, fan-in or cron exactly when that shape accepts the document, and simple otherwise |
| FunctionSchema.PatternIndependent | plans/zzz-complete/nonagentic/examples/function-schema.ts:48-49 | For a function record over any trigger union, the as-written one included, an accepted record stays accepted whichever of the four patterns it declares: `pattern` is never checked against the trigger |
| FunctionSchema.CronOverSimpleTrigger | plans/zzz-complete/nonagentic/examples/function-schema.ts:48-49 | An accepted `FunctionSchema` record may declare `cron` over a trigger that `detectPattern` reads as simple |
| FunctionSchema.FunctionAccepted | plans/zzz-complete/nonagentic/examples/function-schema.ts:45-57 | An accepted `FunctionSchema` record (simple-first union as written) declares one of the four patterns, and its trigger is accepted by one of the four shapes |
| FunctionSchema.FunctionNeverRouting | plans/zzz-complete/nonagentic/examples/function-schema.ts:45-55 | As written, the trigger of a parsed `FunctionSchema` record is never classified as routing |
| FunctionSchema.OrderedFunctionRouting | plans/zzz-complete/nonagentic/examples/function-schema.ts:45-55 | With the corrected trigger order, the trigger of a parsed record is classified as routing exactly when the document's trigger has the routing shape |
| FunctionSchema.WebhookAccepted | plans/zzz-complete/nonagentic/examples/function-schema.ts:64-77 | The extended webhook's auth is one of four, and its output has a `handler` exactly when the document had one |
| StatusYamlSchema.MetaVersionPositive | workspace/done/kringle/schemas/status-yaml-schema.ts:22 | The record version is a positive integer |
| StatusYamlSchema.PositionPhaseClosed | workspace/done/kringle/schemas/status-yaml-schema.ts:30-39 | The current phase is one of the eight phases |
| StatusYamlSchema.PersonaScoreAccepted | workspace/done/kringle/schemas/status-yaml-schema.ts:77-82 | A persona score is accepted exactly when it has a UUID persona id, a string name, a score in [0, 1] and a boolean threshold flag |
| StatusYamlSchema.PersonaMatchingBounds | workspace/done/kringle/schemas/status-yaml-schema.ts:80-89 | Every evaluated persona's score lies in [0, 1], and so does the confidence when it is not null |
| StatusYamlSchema.EmailDraftVersionPositive | workspace/done/kringle/schemas/status-yaml-schema.ts:101 | A recorded email's draft version is a positive integer |
| StatusYamlSchema.CampaignStepBounds | workspace/done/kringle/schemas/status-yaml-schema.ts:118-119 | `eex_step` is null or an integer of at least 0, and `eex_steps_total` is null or an integer of at least 1 |
| StatusYamlSchema.CampaignStepUnordered | workspace/done/kringle/schemas/status-yaml-schema.ts:113-122 | A campaign with a step beyond its total of 1 is accepted: nothing orders the step against the total |
| StatusYamlSchema.ApprovalCountBounds | workspace/done/kringle/schemas/status-yaml-schema.ts:131-135 | An approval's draft version is a positive integer and its reminder count an integer of at least 0 |
| StatusYamlSchema.SnoozeResumeClosed | workspace/done/kringle/schemas/status-yaml-schema.ts:193 | `resume_at_phase` is null or one of reach_out, eex and post_eex |
| StatusYamlSchema.CreateInitialStatusYaml | workspace/done/kringle/schemas/status-yaml-schema.ts:255-321 | The record is an object that carries a meta section and an events log; what it holds is stated by `InitialRecordContents` and its validity by `InitialRecordValid` |
| StatusYamlSchema.InitialMetaAccepted | workspace/done/kringle/schemas/status-yaml-schema.ts:263-269 | The initial meta section is accepted exactly when both ids are UUIDs and `now` is a datetime, and it is then returned unchanged |
| StatusYamlSchema.IngestedEntryAccepted | workspace/done/kringle/schemas/status-yaml-schema.ts:313-319 | The ingestion log entry is accepted exactly when `now` is a datetime, and it is then returned unchanged |
| StatusYamlSchema.InitialPositionAccepted | workspace/done/kringle/schemas/status-yaml-schema.ts:270-275 | The initial position section is returned unchanged |
| StatusYamlSchema.InitialEnrichmentAccepted | workspace/done/kringle/schemas/status-yaml-schema.ts:276-283 | The initial enrichment section is returned unchanged |
| StatusYamlSchema.InitialPersonaMatchingAccepted | workspace/done/kringle/schemas/status-yaml-schema.ts:284-292 | The initial persona-matching section is returned unchanged |
| StatusYamlSchema.InitialSnoozeAccepted | workspace/done/kringle/schemas/status-yaml-schema.ts:297-304 | The initial snooze section is returned unchanged |
| StatusYamlSchema.InitialOutcomeAccepted | workspace/done/kringle/schemas/status-yaml-schema.ts:306-312 | The initial outcome section is returned unchanged |
| StatusYamlSchema.FreshRecordAccepted | workspace/done/kringle/schemas/status-yaml-schema.ts:234-247 | A record with no campaign, no rejection and empty approval, response and escalation lists is returned unchanged once each of its other sections is |
| StatusYamlSchema.FreshRecordRejected | workspace/done/kringle/schemas/status-yaml-schema.ts:234-247 | Such a record is rejected when its meta section is |
| StatusYamlSchema.InitialRecordAccepted | workspace/done/kringle/schemas/status-yaml-schema.ts:234-321 | With UUID ids and a datetime `now`, the initial record passes the status schema and parsing changes nothing |
| StatusYamlSchema.InitialRecordValid | workspace/done/kringle/schemas/status-yaml-schema.ts:234-321 | The initial record passes the status schema exactly when both ids are UUIDs and `now` is a datetime; parsing it then changes nothing |
| StatusYamlSchema.FreshRecordUntouched | workspace/done/kringle/schemas/status-yaml-schema.ts:284-312 | A fresh record whose persona list is empty, snooze section never snoozed and outcome open is untouched |
| StatusYamlSchema.InitialRecordUntouched | workspace/done/kringle/schemas/status-yaml-schema.ts:284-312 | In the initial record, campaign and rejection are null; approvals, responses, escalations and evaluated personas are empty; snooze is active with its other five fields null; outcome is in progress |
| StatusYamlSchema.InitialMetaContents | workspace/done/kringle/schemas/status-yaml-schema.ts:263-269 | The meta section echoes both ids, has `created_at = updated_at = now` and version 1 |
| StatusYamlSchema.IngestedEntryContents | workspace/done/kringle/schemas/status-yaml-schema.ts:313-319 | The log entry is `lead.ingested` at `now`, with data `{captured_url}` |
| StatusYamlSchema.InitialRecordContents | workspace/done/kringle/schemas/status-yaml-schema.ts:263-319 | The initial record echoes both ids, has `created_at = updated_at = now` and version 1; its position is ingestion, ingested, a null step, next event `enrichment.started`; it is untouched; its log is exactly the one `lead.ingested` entry at `now` naming the captured URL |
| StatusYamlSchema.InitialSectionsContents | workspace/done/kringle/schemas/status-yaml-schema.ts:276-312 | The initial record has exactly the twelve sections. Enrichment is pending from rb2b with firecrawl, clay, completed_at and failure_reason null. Persona matching is pending with no evaluated personas and five null fields. Snooze has status active and five null fields. Outcome is in progress with four null fields |
| EscalationHandlerOutput.EscalationKeyNeeded | workspace/done/kringle/schemas/escalation-handler-output.ts:4-43 | Dropping a key from an accepted output keeps it accepted exactly when the key is not `success`, `action` or `agent_reasoning` |
| EscalationHandlerOutput.EscalationActionClosed | workspace/done/kringle/schemas/escalation-handler-output.ts:7-36 | The action is one of the five, and a given termination reason is one of the eight |
| EscalationHandlerOutput.EscalationSnoozeClosed | workspace/done/kringle/schemas/escalation-handler-output.ts:21-23 | A given `snoozed_until` is a datetime, and a given `resume_at_phase` is reach_out, eex or post_eex |
| EscalationHandlerOutput.ResumePhaseStorable | workspace/done/kringle/schemas/escalation-handler-output.ts:23 | The resume phases are the status record's, and a returned phase is accepted unchanged by the snooze section's field |
| EscalationHandlerOutput.SnoozeWithoutEnd | workspace/done/kringle/schemas/escalation-handler-output.ts:3-44 | An accepted output stays accepted with action `snooze` and no `snoozed_until` |
| ProcessorOutput.ProcessorAccepted | context/manifest/examples/sample-product/schemas/processor-output.ts:16-26 | An output is accepted exactly when `success` is a boolean, any `error` and `summary` are strings, and any `themes`, `insights` and `concerns` are string arrays |
| ProcessorOutput.ProcessorKeyNeeded | context/manifest/examples/sample-product/schemas/processor-output.ts:18-25 | Dropping a key from an accepted output keeps it accepted exactly when the key is not `success` |
| ProcessorOutput.FailureWithSummary | context/manifest/examples/sample-product/schemas/processor-output.ts:21-25 | An accepted output stays accepted with `success = false` and a `summary` |
| ReplyDrafterOutput.ReplyKeyNeeded | workspace/done/kringle/schemas/reply-drafter-output.ts:4-38 | Dropping a key from an accepted output keeps it accepted exactly when the key is `html_body`, `text_body` or `error` |
| ReplyDrafterOutput.ReplyBounds | workspace/done/kringle/schemas/reply-drafter-output.ts:16-17 | The preview has at most 500 characters and the word count is a positive integer |
| ReplyDrafterOutput.ReplyStrategyClosed | workspace/done/kringle/schemas/reply-drafter-output.ts:20-35 | The question type is one of seven and the strategy one of five |
| PersonaMatcherOutput.MatcherKeyNeeded | workspace/done/kringle/schemas/persona-matcher-output.ts:11-29 | Dropping a key from an accepted output keeps it accepted exactly when the key is `error`; the nullable fields must be present |
| PersonaMatcherOutput.MatcherFieldsBounded | workspace/done/kringle/schemas/persona-matcher-output.ts:15-17 | `persona_id` is null or a UUID, `persona_name` is null or a string, and `confidence_score` is null or in [0, 1] |
| PersonaMatcherOutput.MatcherReasonClosed | workspace/done/kringle/schemas/persona-matcher-output.ts:21 | `reason` is null or one of no_match and insufficient_data |
| PersonaMatcherOutput.ScoresStorable | workspace/done/kringle/schemas/persona-matcher-output.ts:3-25 | The score schema equals the status record's, so every entry of `scores` is accepted unchanged as an evaluated persona and has its score in [0, 1] |
| PersonaMatcherOutput.MatchedWithoutPersona | workspace/done/kringle/schemas/persona-matcher-output.ts:12-17 | An accepted output stays accepted with `matched = true` and `persona_id = null` |
| PersonaMatcherOutput.UnnamedPersonaAccepted | workspace/done/kringle/schemas/persona-matcher-output.ts:16 | An accepted output stays accepted with `persona_name = null` |
| EmailDrafterOutput.EmailKeyNeeded | workspace/done/kringle/schemas/email-drafter-output.ts:4-31 | Dropping a key from an accepted draft keeps it accepted exactly when the key is `text_body`, `revision_incorporated` or `error` |
| EmailDrafterOutput.EmailDraftBounds | workspace/done/kringle/schemas/email-drafter-output.ts:8-27 | The draft version is a positive integer, the preview has at most 500 characters, and the personalisations are a string array |
| EmailDrafterOutput.EmailTypeClosed | workspace/done/kringle/schemas/email-drafter-output.ts:9-16 | The email type is one of ten values, eex_1 to eex_5 among them |
| EmailDrafterOutput.DraftVersionRecordable | workspace/done/kringle/schemas/email-drafter-output.ts:8 | The draft version is accepted unchanged by the status record's email and approval entries |
| EmailDrafterOutput.EmailTypeRecordable | workspace/done/kringle/schemas/email-drafter-output.ts:9-16 | The email type is accepted unchanged by the status record's email and approval entries |
| ResponseTriagerOutput.TriagerKeyNeeded | workspace/done/kringle/schemas/response-triager-output.ts:4-33 | Dropping a key from an accepted triage keeps it accepted exactly when the key is `snooze_until`, `snooze_reason`, `question_summary` or `error` |
| ResponseTriagerOutput.TriagerFieldsClosed | workspace/done/kringle/schemas/response-triager-output.ts:7-23 | The classification is one of eight, the sentiment one of three, and a given `snooze_until` is a datetime |
| ResponseTriagerOutput.VerdictStorable | workspace/done/kringle/schemas/response-triager-output.ts:7-17 | The classifications and sentiments are the status record's, and a verdict is accepted unchanged by a response entry |
| ResponseTriagerOutput.DelayedWithoutSnooze | workspace/done/kringle/schemas/response-triager-output.ts:7-24 | An accepted triage stays accepted when classified `delayed` with no `snooze_until` |

## Left out

- String formats. Zod checks `.uuid()`, `.datetime()`, `.email()` and `.url()` with its own regular expressions, which are library code. Every parse takes them as the parameter `fmt`, so every lemma holds whatever `fmt` decides.
- Issue reporting. Zod's error messages, issue paths and issue collection are not modelled; only the verdict and the normalised value are.
- Numbers. `z.number()` is a JavaScript double. The schemas only compare numbers against bounds, so numbers are `real` and there is no floating-point arithmetic to model.
- String lengths. `.max(500)` is modelled on the length of a `seq<char>`, not on UTF-16 code units.
- `z.any()`. It is modelled as accepting every value unchanged, so the `data` of a log entry is an opaque value.
- `.describe()`. The processor schema's descriptions have no effect on parsing, so they are not modelled.
- The clock. `new Date().toISOString()` in `createInitialStatusYaml` becomes the parameter `now`.
- YAML and storage. Reading and writing status files is I/O and is not modelled.
- Rules the repository does not enforce. These appear only as lemmas showing they are not enforced (`CampaignStepUnordered`, `PatternIndependent`, `SnoozeWithoutEnd`, `FailureWithSummary`, `MatchedWithoutPersona`, `DelayedWithoutSnooze`):
  - cross-references between manifest sections;
  - states named by contracts;
  - events emitted against events declared;
  - `eex_step ≤ eex_steps_total`;
  - an agent's action against the fields it needs.
- Infrastructure. The credentials and URLs of the manifest's `infrastructure` section are modelled as the plain strings the schema requires, and nothing more is proved about them.
- `action` is required. The escalation handler's `action` has no `.optional()` (escalation-handler-output.ts:7), so the model treats it as required together with `success` and `agent_reasoning`.
- `FUNCTION_SCHEMA` is the record as written, over the simple-first union. The corrected record is `ORDERED_FUNCTION_SCHEMA`, over the union tried most specific first (see the finding below).
- FunctionSchema.FUNCTIONS_ARRAY_SCHEMA: an array of function records. Nothing beyond what holds for each element is proved about it.

## Findings

| source | as written | input that shows it | evidently intended | confidence | as-written member | corrected member |
|---|---|---|---|---|---|---|
| plans/zzz-complete/nonagentic/examples/function-schema.ts:34-39, 86 | The trigger union tries the simple shape first. Every routing trigger has a string `event`, so the simple shape accepts it and strips every other key. After parsing, `route_on` is gone and `detectPattern` can never answer `routing`. | `{"event": "lead.replied", "route_on": "classification", "routes": {}}` parses to `{"event": "lead.replied"}`, which is classified `simple` | The shapes are tried most specific first (routing, fan-in, cron, simple), so a parsed trigger keeps the keys of the shape that matched it and is classified as that shape | not executed | FunctionSchema.AsWrittenNeverRouting, FunctionSchema.AsWrittenRoutingLost, FunctionSchema.FunctionNeverRouting | FunctionSchema.OrderedTriggerPattern, FunctionSchema.OrderedFunctionRouting, FunctionSchema.ORDERED_FUNCTION_SCHEMA |
