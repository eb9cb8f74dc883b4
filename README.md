# karo-reactions alert actions, modelled in Dafny

The repository holds three small container actions that an alerting
controller runs when an alert fires. Each reads its settings and the alert
from environment variables and then sends one thing:

- `actions/gcp-workflows` starts a Google Cloud Workflows execution and may
  wait for it to finish.
- `actions/gcp-pubsub` publishes a message to a Pub/Sub topic.
- `actions/webhook-sender` POSTs a JSON payload to a URL.

This project models the logic they share, which turns an alert record plus
an environment into three things:

1. a validated configuration: required variables, defaults, and a default
   overridden only when the variable parses;
2. a destination: the workflow name, read from a static setting or from an
   alert field and then sanitized; the topic; the URL;
3. an outbound payload: each field takes the record value when it is
   non-empty, and otherwise one named variable.

It also models the parts specific to one action:

- the workflow execution path;
- the wait / no-wait branch;
- the completion poll loop;
- the Pub/Sub attribute map;
- the webhook header set;
- the webhook 2xx success rule.

Modules, one per component:

- `Alerts` (`alerts.dfy`): the alert record and `Option`/`Result`. The
  environment is `map<string,string>`, and a missing variable reads as "".
  It also holds Go's nil-map lookup and the record-or-environment fallback
  rule.
- `Strings` (`strings.dfy`): the subset of Go's `strings` package the
  actions use. That is `Split` on one character, proved inverse to a
  `Join`, plus ASCII `ToLower`/`ToUpper` and one-character `ReplaceAll`.
- `FieldResolver` (`field_resolver.dfy`): `extractFieldFromAlert`, with its
  dot-path lookup, and `extractFieldFromEnv`, with its fixed five-entry
  table and the derived variable name.
- `NameSanitizer` (`name_sanitizer.dfy`): `sanitizeWorkflowName` has two
  forms here. `Sanitized` is a specification function, and
  `SanitizeWorkflowName` is a method with the rune loop proved equal to it.
- `CompletionMonitor` (`completion_monitor.dfy`): `waitForExecution` takes a
  sequence of poll outcomes and a poll budget that stands in for the
  context deadline. `Monitor` specifies it as a function, and the
  `WaitForExecution` loop is proved equal to it.
- `GcpWorkflows` (`gcp_workflows.dfy`): `loadConfig`, `resolveWorkflowName`,
  `buildWorkflowInput`, the path and wait branch of `executeWorkflow`, and
  `main`.
- `GcpPubSub` (`gcp_pubsub.dfy`): `loadConfig`, `buildMessage`, the
  attribute map of `publishMessage`, and `main`.
- `WebhookSender` (`webhook_sender.dfy`): the configuration checks of `main`
  and `buildWebhookPayload`. From `sendWebhook` it takes the header block,
  on a `Request` class whose header map is set in place, and the status
  check.

The model takes the outcomes of every remote call as parameters:

- the `executions.NewClient` and `pubsub.NewClient` errors (`clientError`);
- the created execution name or error;
- each GetExecution reply;
- the publish result;
- the HTTP response or transport error.

It also takes as parameters the formatted timestamp, the `strconv.Atoi` /
`strconv.ParseBool` results, and the error of `http.NewRequest`, which
parses the URL locally.

## Model

| member | source | states |
|---|---|---|
| Alerts.GetValueWithFallback | actions/webhook-sender/src/main.go:110-115 | the primary value when it is non-empty, otherwise the fallback; the result is empty iff both are empty |
| Alerts.FallbackToEnv | actions/gcp-workflows/src/main.go:297-299 | the statement `if v == "" { v = os.Getenv(key) }` leaves the record value when non-empty and otherwise the one variable `key` |
| Strings.ToLower | actions/gcp-workflows/src/main.go:245 | same length; every character is its ASCII lower-case form |
| Strings.ToUpper | actions/gcp-workflows/src/main.go:238 | same length; every character is its ASCII upper-case form |
| Strings.ReplaceAll | actions/gcp-workflows/src/main.go:246-247 | same length; exactly the occurrences of `from` become `to` |
| Strings.Split | actions/gcp-workflows/src/main.go:195 | at least one piece, and no piece contains the separator |
| Strings.JoinSplit | actions/gcp-workflows/src/main.go:195 | joining the pieces of a split with the separator gives back the string |
| Strings.SplitJoin | actions/gcp-workflows/src/main.go:195 | splitting a join of separator-free pieces gives back those pieces |
| FieldResolver.ExtractFieldFromAlert | actions/gcp-workflows/src/main.go:192-220 | the split-and-switch lookup of a dot-path in the record; characterised by `ExtractFieldFromAlertByPrefix` and the field lemmas below |
| FieldResolver.ExtractFieldFromAlertByPrefix | actions/gcp-workflows/src/main.go:192-220 | the split-based lookup equals a lookup read off the path's characters: `status`, then `labels.<key>` or `annotations.<key>` with a dot-free key, otherwise "" |
| FieldResolver.OutsideSectionsIsEmpty | actions/gcp-workflows/src/main.go:197-219 | a path other than `status` and not `labels.`/`annotations.` plus one dot-free key reads "" |
| FieldResolver.StatusField | actions/gcp-workflows/src/main.go:197-203 | `status` yields the record status |
| FieldResolver.LabelField | actions/gcp-workflows/src/main.go:206-211 | `labels.k` yields the label `k`, or "" when the map is nil or lacks `k` |
| FieldResolver.AnnotationField | actions/gcp-workflows/src/main.go:212-215 | `annotations.k` yields the annotation `k`, or "" when the map is nil or lacks `k` |
| FieldResolver.DeepPathIsEmpty | actions/gcp-workflows/src/main.go:206-219 | a path of three or more segments yields "" |
| FieldResolver.OtherSingleSegmentIsEmpty | actions/gcp-workflows/src/main.go:197-204 | a one-segment path other than `status` yields "" |
| FieldResolver.EnvMappings | actions/gcp-workflows/src/main.go:224-230 | the five well-known paths and their variables: `labels.alertname`, `labels.workflow`, `annotations.workflow`, `annotations.workflow_name`, `status` |
| FieldResolver.ExtractFieldFromEnv | actions/gcp-workflows/src/main.go:222-240 | the table variable for a table path, otherwise the derived name; characterised by `TablePathReadsOnlyItsVariable` and `UntabledPathReadsDerivedName` |
| FieldResolver.DerivedEnvName | actions/gcp-workflows/src/main.go:236-238 | same length as the path; each `.` becomes `_` and every letter is upper-cased |
| FieldResolver.LabelsWorkflowReadsTableVariable | actions/gcp-workflows/src/main.go:224-234 | `labels.workflow` reads WORKFLOW_FROM_LABEL, and changing LABELS_WORKFLOW does not change the result |
| FieldResolver.TablePathReadsOnlyItsVariable | actions/gcp-workflows/src/main.go:224-234 | each table path reads its mapped variable, and changing any other variable leaves the result alone |
| FieldResolver.UntabledPathReadsDerivedName | actions/gcp-workflows/src/main.go:236-239 | a path outside the table reads the variable named by upper-casing the path and turning `.` into `_` |
| NameSanitizer.KeepNameChars | actions/gcp-workflows/src/main.go:249-255 | the filter keeps only `[a-z0-9_-]`, never lengthens, fixes a string already in that alphabet, and is empty iff no character qualifies |
| NameSanitizer.KeepNameCharsAppend | actions/gcp-workflows/src/main.go:251-255 | filtering a concatenation is the concatenation of the filtered parts |
| NameSanitizer.GuardLeadingDigit | actions/gcp-workflows/src/main.go:259-262 | keeps the alphabet, never yields a leading digit, and is empty iff its input is |
| NameSanitizer.Sanitized | actions/gcp-workflows/src/main.go:242-270 | the output is in `[a-z0-9_-]`, at most 63 long, and does not start with a digit |
| NameSanitizer.SanitizeWorkflowName | actions/gcp-workflows/src/main.go:242-270 | the rune loop followed by the prefix and the cut returns `Sanitized(name)` |
| NameSanitizer.Normalized | actions/gcp-workflows/src/main.go:245-247 | lower-casing, then spaces and then dots to `-`; characterised by `NormalizedPointwise` |
| NameSanitizer.NormalizedPointwise | actions/gcp-workflows/src/main.go:245-247 | the three passes map each character on its own: space and dot become `-`, upper-case becomes lower-case |
| NameSanitizer.NormalizedFixesNameChars | actions/gcp-workflows/src/main.go:245-247 | a string in `[a-z0-9_-]` passes the lower-casing and replacements unchanged |
| NameSanitizer.SanitizeIdempotent | actions/gcp-workflows/src/main.go:242-270 | sanitizing a sanitized name changes nothing |
| NameSanitizer.SanitizedEmptyIff | actions/gcp-workflows/src/main.go:249-262 | the result is empty iff no character of the normalised name is kept |
| NameSanitizer.DigitLedNameGuarded | actions/gcp-workflows/src/main.go:259-262 | an in-alphabet name under 63 characters that starts with a digit gains exactly a `_` prefix |
| NameSanitizer.ValidNameUnchanged | actions/gcp-workflows/src/main.go:242-270 | an in-alphabet name of at most 63 characters that does not start with a digit is returned unchanged |
| NameSanitizer.PayRollExample | actions/gcp-workflows/src/main.go:245-269 | `Pay Roll!` becomes `pay-roll` |
| NameSanitizer.LeadingHyphenKept | actions/gcp-workflows/src/main.go:259-262 | `-job` is returned unchanged, so the output may start with `-` |
| CompletionMonitor.StopResult | actions/gcp-workflows/src/main.go:396-407 | a terminal poll never yields the timeout error |
| CompletionMonitor.Monitor | actions/gcp-workflows/src/main.go:379-416 | never more polls than the budget or the outcomes allow, and at least one poll unless it timed out |
| CompletionMonitor.WaitForExecution | actions/gcp-workflows/src/main.go:373-417 | the polling loop with its early returns computes `Monitor(polls, budget)` |
| CompletionMonitor.FirstStopDecides | actions/gcp-workflows/src/main.go:396-407 | the first SUCCEEDED, FAILED, CANCELLED or poll error within the budget decides the result, and the poll count is its position plus one |
| CompletionMonitor.TimeoutIff | actions/gcp-workflows/src/main.go:379-383 | timeout iff no poll the budget allows is terminal; a timeout has then used every allowed poll |
| CompletionMonitor.EffectiveDeadline | actions/gcp-workflows/src/main.go:379-383 | the effective deadline is the smaller of the budget and the number of replies: the run is unchanged when the budget is cut to that, or the replies are cut to that many |
| CompletionMonitor.KeepsPolling | actions/gcp-workflows/src/main.go:408-413 | ACTIVE and unknown states continue with the remaining polls, one poll later |
| CompletionMonitor.ActiveActiveSucceeded | actions/gcp-workflows/src/main.go:379-416 | ACTIVE, ACTIVE, SUCCEEDED gives success after exactly three polls |
| CompletionMonitor.PollErrorIsImmediate | actions/gcp-workflows/src/main.go:389-392 | a failing GetExecution ends the wait after that one poll with its error |
| GcpWorkflows.LoadConfig | actions/gcp-workflows/src/main.go:86-138 | an empty GCP_PROJECT_ID fails first. Otherwise it fails when both or neither of WORKFLOW_NAME and WORKFLOW_NAME_FIELD is set, and success means exactly one is. Location defaults to us-central1, timeout to 300 (set only when TIMEOUT_SECONDS parses), source to karo, wait to true (set only when WAIT_FOR_COMPLETION parses) |
| GcpWorkflows.RawWorkflowName | actions/gcp-workflows/src/main.go:166-176 | the record lookup, and the environment only when it gives ""; characterised by `AlertBeforeEnv` and `EnvWhenAlertSilent` |
| GcpWorkflows.ResolveWorkflowName | actions/gcp-workflows/src/main.go:155-190 | a resolved name is never empty |
| GcpWorkflows.StaticNameVerbatim | actions/gcp-workflows/src/main.go:157-159 | a non-empty static name is returned as written, unsanitized |
| GcpWorkflows.AlertBeforeEnv | actions/gcp-workflows/src/main.go:166-176 | a non-empty record value is used and sanitized, whatever the environment holds |
| GcpWorkflows.EnvWhenAlertSilent | actions/gcp-workflows/src/main.go:173-189 | with no record value the environment is read; an empty raw value and an empty sanitized value are the two errors |
| GcpWorkflows.DynamicNameIsSanitized | actions/gcp-workflows/src/main.go:182-189 | a resolved field-path name is in `[a-z0-9_-]`, 1 to 63 long, has no leading digit and is a fixed point of the sanitizer |
| GcpWorkflows.PayRollFromLabel | actions/gcp-workflows/src/main.go:155-190 | the label `workflow` = `Pay Roll!` resolves to `pay-roll` |
| GcpWorkflows.BuildWorkflowInput | actions/gcp-workflows/src/main.go:272-317 | `InputFrom`: source and timestamp as given. Status, labels and annotations are copied from a present record. Each of the six fields is the record value if non-empty, else its one variable. With no record all six come from the environment and labels/annotations stay absent |
| GcpWorkflows.WorkflowPath | actions/gcp-workflows/src/main.go:346 | `projects/<project>/locations/<location>/workflows/<name>`; characterised by `WorkflowPathComponents` |
| GcpWorkflows.WorkflowPathComponents | actions/gcp-workflows/src/main.go:346 | for slash-free components the path splits on `/` into exactly `projects`, project, `locations`, location, `workflows`, name |
| GcpWorkflows.ExecuteWorkflow | actions/gcp-workflows/src/main.go:330-370 | a client error sends no request. Otherwise the request targets `WorkflowPath` with the input. A create error is returned without polling. Without wait it succeeds with no poll. With wait its result and poll count are the monitor's |
| GcpWorkflows.Run | actions/gcp-workflows/src/main.go:52-84 | an invalid configuration stops before any request with its exact `ConfigError` (missing project, then no name, then conflicting names); configuration and name errors send nothing. A field name whose raw value is empty gives `NameNotFound(field)`, and one that sanitizes to "" gives `InvalidAfterSanitization(field)`. Once the configuration is valid and the name resolves, a request is sent iff the client is built, and a client error is returned as `ClientFailed`. With the client built, a create error is returned as `CreateFailed` with its message, and a failed wait as `WaitFailed` with the monitor's error. A sent request targets `WorkflowPath` of the project, the location (default us-central1) and the resolved name. That name is the static WORKFLOW_NAME when set, otherwise the sanitized field value. The argument satisfies `InputFrom` for the record, environment, timestamp and configured source. Success iff a request was sent, the execution was created and, when waiting (WAIT_FOR_COMPLETION, default true), the monitor reports success |
| GcpPubSub.LoadConfig | actions/gcp-pubsub/src/main.go:73-106 | an empty GCP_PROJECT_ID fails first, then an empty PUBSUB_TOPIC_ID, and success means both are set. Timeout defaults to 30 and is set only when TIMEOUT_SECONDS parses; source defaults to karo and is set only from a non-empty MESSAGE_SOURCE |
| GcpPubSub.BuildMessage | actions/gcp-pubsub/src/main.go:123-168 | `MessageFrom`: source and timestamp as given, and status/labels/annotations from a present record. Each of the six fields is the record value if non-empty, else its one variable (empty only when both are). With no record all six come from the environment |
| GcpPubSub.EnvTestAlertName | actions/gcp-pubsub/src/main.go:148-150 | `BuildMessage` with no record and ALERT_NAME=EnvTest gives a message whose alert name is `EnvTest` |
| GcpPubSub.Attributes | actions/gcp-pubsub/src/main.go:200-209 | the attribute keys are exactly alertName, status, severity, source and timestamp |
| GcpPubSub.AttributesIff | actions/gcp-pubsub/src/main.go:202-208 | two messages have equal attributes iff they agree on alert name, status, severity, source and timestamp |
| GcpPubSub.AttributeCount | actions/gcp-pubsub/src/main.go:202-208 | there are exactly five attributes |
| GcpPubSub.Run | actions/gcp-pubsub/src/main.go:47-71 | a missing project is `MissingProjectId`, and with the project set a missing topic is `MissingTopicId`; either stops before publishing, and so does a client error. Otherwise it publishes to that project and topic a message satisfying `MessageFrom` for the record, environment, timestamp and configured source (default karo), with `Attributes` of that message, and the result is the publish outcome |
| WebhookSender.LoadConfig | actions/webhook-sender/src/main.go:41-52 | fails iff WEBHOOK_URL is empty. The timeout defaults to 30 and changes only when TIMEOUT_SECONDS parses as an integer |
| WebhookSender.BuildWebhookPayload | actions/webhook-sender/src/main.go:75-108 | `PayloadFrom`: the timestamp as given; labels and annotations are copied unchanged, and status is the record status or ALERT_STATUS. With a label map each label field is the label value with its variable as fallback, and with a nil map it is the variable itself. Summary and description behave the same way with annotations |
| WebhookSender.Request.constructor | actions/webhook-sender/src/main.go:133 | a new request has the URL and body and no headers |
| WebhookSender.Request.SetHeader | actions/webhook-sender/src/main.go:139-140 | the key now maps to the value; every other header, the URL and the body are unchanged |
| WebhookSender.Headers | actions/webhook-sender/src/main.go:138-145 | the header set of a request for a given AUTH_HEADER; characterised by `HeadersContents` |
| WebhookSender.HeadersContents | actions/webhook-sender/src/main.go:138-145 | Content-Type `application/json` and User-Agent `karo-webhook-sender/1.0.0` are always present. Authorization is present iff AUTH_HEADER is non-empty and then carries it. There are no other headers |
| WebhookSender.SetHeaders | actions/webhook-sender/src/main.go:138-145 | the in-place header updates on a fresh request leave exactly the header set `Headers(AUTH_HEADER)` |
| WebhookSender.CheckStatus | actions/webhook-sender/src/main.go:165-170 | success iff 200 <= status < 300; otherwise the error carries the status code and the body |
| WebhookSender.SendWebhook | actions/webhook-sender/src/main.go:117-171 | a request-creation error sends nothing. Otherwise the URL, payload and header set go out, and the result is the transport error or the status check |
| WebhookSender.Run | actions/webhook-sender/src/main.go:37-73 | an empty WEBHOOK_URL is fatal before any payload is built; otherwise the payload satisfies `PayloadFrom` for the record, environment and timestamp. A request goes out iff the URL is set and the request is created, and it carries that URL, that payload and `Headers(AUTH_HEADER)`. Success iff the URL is set, the request is created and the response status is 2xx. With the URL set, a creation error is `CreateRequestFailed`, a transport error is `SendFailed`, and a non-2xx response is `StatusRejected` with its status code and body |

## Left out

- JSON: `json.Marshal` of the payloads and `json.Unmarshal` in `parseAlertData` are library serialisation. The parsed alert is a parameter. In the two GCP actions a parse failure is "no record" (`None`). In the webhook action it is the zero record, so values that `json.Unmarshal` may have filled in before failing are not modelled.
- Remote calls: the workflow and Pub/Sub client construction, CreateExecution and GetExecution, Pub/Sub Publish/Get, `client.Do` and reading the response body are network calls. Their outcomes are parameters (`clientError`, `created`, the polls, `published`, the exchange). The response body is whatever was read, including a partial read that ended in an error.
- Request creation: `http.NewRequest` only parses the method and URL locally. Its URL parsing is not modelled, and its error is a parameter (`requestError`).
- Marshalling errors: the JSON marshalling failures of the three send paths are not modelled.
- The clock: `time.Now().UTC().Format(time.RFC3339)` becomes a `timestamp` parameter.
- Timing in `waitForExecution`: the 5-second ticker, the `select` and the context deadline are replaced by a poll budget. That leaves out Go's random choice between two ready channels, and the deadline cutting a GetExecution short. The model reads a sequence of poll replies, and a sequence shorter than the budget ends in a timeout after its last reply. The effective deadline is therefore `Min(budget, |polls|)` (`EffectiveDeadline`); Go itself never runs out of replies.
- Timeouts: the configured timeouts are carried in the configuration but do not act. `time.Duration` overflow for huge or negative values is not modelled.
- Processes: `log` output, `log.Fatal`/`log.Fatalf` and the exit status are left out. A fatal error is a `Result` error.
- Environment: `os.Getenv` is a lookup in an explicit map.
- Credentials: the credential-file client options are left out.
- Strings.ToLower: `strings.ToLower` and `strings.ToUpper` are modelled on ASCII letters only. Unicode case mappings, such as the Kelvin sign lowering to `k`, are not modelled, and characters are Unicode scalar values rather than UTF-8 bytes.
- Parsing: `strconv.Atoi` and `strconv.ParseBool` are not modelled. Their results are supplied as `Option` values, and a parsed timeout is an unbounded integer rather than Go's 64-bit `int`.
- Headers: `Header.Set` canonicalises header names; the three names set here are already canonical, so the header map uses them as written.
- NameSanitizer.Sanitized: the comments at actions/gcp-workflows/src/main.go:243 and :259 say a name starts with a letter or underscore. The code only puts `_` before a leading digit, so that claim is not proved, and `LeadingHyphenKept` shows that `-job` comes out unchanged.
