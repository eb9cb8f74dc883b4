/** The workflow-triggering action (actions/gcp-workflows/src/main.go):
    configuration, workflow-name resolution, the workflow input, the
    execution request and the optional wait for completion. */
module GcpWorkflows {
  import opened Alerts
  import opened Strings
  import opened FieldResolver
  import opened NameSanitizer
  import opened CompletionMonitor

  const DefaultLocation := "us-central1"
  const DefaultTimeoutSeconds := 300
  const DefaultSource := "karo"
  const DefaultWaitForCompletion := true

  datatype Config = Config(
    projectId: string,
    location: string,
    workflowName: string,
    workflowNameField: string,
    serviceAccountPath: string,
    timeoutSeconds: int,
    source: string,
    waitForCompletion: bool)

  datatype ConfigError = MissingProjectId | NoWorkflowName | ConflictingWorkflowName

  /** loadConfig. `parsedTimeout` and `parsedWait` are what strconv.Atoi
      and strconv.ParseBool return for TIMEOUT_SECONDS and
      WAIT_FOR_COMPLETION (None for a parse error); they are used only when
      the variable is set. */
  method LoadConfig(env: Env, parsedTimeout: Option<int>, parsedWait: Option<bool>)
    returns (r: Result<Config, ConfigError>)
    ensures Getenv(env, "GCP_PROJECT_ID") == "" ==> r == Err(MissingProjectId)
    ensures (Getenv(env, "GCP_PROJECT_ID") != "" && Getenv(env, "WORKFLOW_NAME") == "" &&
             Getenv(env, "WORKFLOW_NAME_FIELD") == "") ==> r == Err(NoWorkflowName)
    ensures (Getenv(env, "GCP_PROJECT_ID") != "" && Getenv(env, "WORKFLOW_NAME") != "" &&
             Getenv(env, "WORKFLOW_NAME_FIELD") != "") ==> r == Err(ConflictingWorkflowName)
    ensures r.Ok? <==> (Getenv(env, "GCP_PROJECT_ID") != "" &&
                        ((Getenv(env, "WORKFLOW_NAME") == "") != (Getenv(env, "WORKFLOW_NAME_FIELD") == "")))
    ensures r.Ok? ==>
      var c := r.value;
      && c.projectId == Getenv(env, "GCP_PROJECT_ID")
      && c.location == (if Getenv(env, "GCP_LOCATION") != "" then Getenv(env, "GCP_LOCATION") else DefaultLocation)
      && c.workflowName == Getenv(env, "WORKFLOW_NAME")
      && c.workflowNameField == Getenv(env, "WORKFLOW_NAME_FIELD")
      && c.serviceAccountPath == Getenv(env, "GOOGLE_APPLICATION_CREDENTIALS")
      && c.timeoutSeconds ==
           (if Getenv(env, "TIMEOUT_SECONDS") != "" && parsedTimeout.Some?
            then parsedTimeout.value else DefaultTimeoutSeconds)
      && c.source == (if Getenv(env, "WORKFLOW_SOURCE") != "" then Getenv(env, "WORKFLOW_SOURCE") else DefaultSource)
      && c.waitForCompletion ==
           (if Getenv(env, "WAIT_FOR_COMPLETION") != "" && parsedWait.Some?
            then parsedWait.value else DefaultWaitForCompletion)
  {
    var config := Config(
      Getenv(env, "GCP_PROJECT_ID"),
      Getenv(env, "GCP_LOCATION"),
      Getenv(env, "WORKFLOW_NAME"),
      Getenv(env, "WORKFLOW_NAME_FIELD"),
      Getenv(env, "GOOGLE_APPLICATION_CREDENTIALS"),
      DefaultTimeoutSeconds,
      DefaultSource,
      DefaultWaitForCompletion);

    if config.projectId == "" {
      return Err(MissingProjectId);
    }
    if config.location == "" {
      config := config.(location := DefaultLocation);
    }

    if config.workflowName == "" && config.workflowNameField == "" {
      return Err(NoWorkflowName);
    }
    if config.workflowName != "" && config.workflowNameField != "" {
      return Err(ConflictingWorkflowName);
    }

    if Getenv(env, "TIMEOUT_SECONDS") != "" {
      if parsedTimeout.Some? {
        config := config.(timeoutSeconds := parsedTimeout.value);
      }
    }

    var source := Getenv(env, "WORKFLOW_SOURCE");
    if source != "" {
      config := config.(source := source);
    }

    if Getenv(env, "WAIT_FOR_COMPLETION") != "" {
      if parsedWait.Some? {
        config := config.(waitForCompletion := parsedWait.value);
      }
    }

    return Ok(config);
  }

  datatype ResolveError =
    | FieldNotSpecified
    | NameNotFound(field: string)
    | InvalidAfterSanitization(field: string)

  /** The field value the name is read from: the alert record first, the
      environment only when the record gives "". */
  function RawWorkflowName(field: string, alert: Option<AlertData>, env: Env): string
  {
    var fromAlert := if alert.Some? then ExtractFieldFromAlert(alert.value, field) else "";
    if fromAlert == "" then ExtractFieldFromEnv(env, field) else fromAlert
  }

  /** resolveWorkflowName. */
  function ResolveWorkflowName(config: Config, alert: Option<AlertData>, env: Env): (r: Result<string, ResolveError>)
    ensures r.Ok? ==> r.value != ""
  {
    if config.workflowName != "" then Ok(config.workflowName)
    else if config.workflowNameField == "" then Err(FieldNotSpecified)
    else
      var raw := RawWorkflowName(config.workflowNameField, alert, env);
      if raw == "" then Err(NameNotFound(config.workflowNameField))
      else
        var name := Sanitized(raw);
        if name == "" then Err(InvalidAfterSanitization(config.workflowNameField))
        else Ok(name)
  }

  /** A static name wins and is returned as written, without sanitizing. */
  lemma StaticNameVerbatim(config: Config, alert: Option<AlertData>, env: Env)
    requires config.workflowName != ""
    ensures ResolveWorkflowName(config, alert, env) == Ok(config.workflowName)
  {
  }

  /** A dynamic name comes from the sanitized record value when the record
      has one, whatever the environment says. */
  lemma AlertBeforeEnv(config: Config, alert: AlertData, env: Env, env': Env)
    requires config.workflowName == "" && config.workflowNameField != ""
    requires ExtractFieldFromAlert(alert, config.workflowNameField) != ""
    ensures ResolveWorkflowName(config, Some(alert), env) == ResolveWorkflowName(config, Some(alert), env')
    ensures var raw := ExtractFieldFromAlert(alert, config.workflowNameField);
            ResolveWorkflowName(config, Some(alert), env) ==
              if Sanitized(raw) == "" then Err(InvalidAfterSanitization(config.workflowNameField)) else Ok(Sanitized(raw))
  {
  }

  /** Without a record value the name is read from the environment. */
  lemma EnvWhenAlertSilent(config: Config, alert: Option<AlertData>, env: Env)
    requires config.workflowName == "" && config.workflowNameField != ""
    requires alert.None? || ExtractFieldFromAlert(alert.value, config.workflowNameField) == ""
    ensures var raw := ExtractFieldFromEnv(env, config.workflowNameField);
            ResolveWorkflowName(config, alert, env) ==
              if raw == "" then Err(NameNotFound(config.workflowNameField))
              else if Sanitized(raw) == "" then Err(InvalidAfterSanitization(config.workflowNameField))
              else Ok(Sanitized(raw))
  {
  }

  /** A dynamic name that resolves is a valid identifier: name characters
      only, at most 63 of them, no leading digit, and sanitizing it again
      changes nothing. */
  lemma DynamicNameIsSanitized(config: Config, alert: Option<AlertData>, env: Env)
    requires config.workflowName == ""
    requires ResolveWorkflowName(config, alert, env).Ok?
    ensures var name := ResolveWorkflowName(config, alert, env).value;
            AllNameChars(name) && 0 < |name| <= MaxNameLength && !IsDigit(name[0]) && Sanitized(name) == name
  {
    SanitizeIdempotent(RawWorkflowName(config.workflowNameField, alert, env));
  }

  /** The record label `workflow` = `Pay Roll!` resolves to `pay-roll`. */
  lemma PayRollFromLabel(config: Config, env: Env, alert: AlertData)
    requires config.workflowName == "" && config.workflowNameField == "labels.workflow"
    requires alert.labels == Some(map["workflow" := "Pay Roll!"])
    ensures ResolveWorkflowName(config, Some(alert), env) == Ok("pay-roll")
  {
    var key, raw := "workflow", "Pay Roll!";
    LabelField(alert, key);
    assert "labels." + key == config.workflowNameField;
    assert ExtractFieldFromAlert(alert, config.workflowNameField) == raw;
    PayRollExample();
    AlertBeforeEnv(config, alert, env, env);
  }

  /** The data sent to the workflow as its argument. */
  datatype WorkflowInput = WorkflowInput(
    alertName: string,
    status: string,
    severity: string,
    instance: string,
    summary: string,
    description: string,
    labels: Option<map<string, string>>,
    annotations: Option<map<string, string>>,
    timestamp: string,
    source: string)

  /** The field equations of buildWorkflowInput: source and timestamp as
      given, labels and annotations copied from a present record, and each
      of the six text fields the record value when it is non-empty,
      otherwise its one variable. */
  predicate InputFrom(input: WorkflowInput, alert: Option<AlertData>, source: string, env: Env, timestamp: string)
  {
    && input.source == source && input.timestamp == timestamp
    && input.labels == (if alert.Some? then alert.value.labels else None)
    && input.annotations == (if alert.Some? then alert.value.annotations else None)
    && input.alertName == GetValueWithFallback(LabelOf(alert, "alertname"), Getenv(env, "ALERT_NAME"))
    && input.status == GetValueWithFallback(StatusOf(alert), Getenv(env, "ALERT_STATUS"))
    && input.severity == GetValueWithFallback(LabelOf(alert, "severity"), Getenv(env, "ALERT_SEVERITY"))
    && input.instance == GetValueWithFallback(LabelOf(alert, "instance"), Getenv(env, "INSTANCE"))
    && input.summary == GetValueWithFallback(AnnotationOf(alert, "summary"), Getenv(env, "ALERT_SUMMARY"))
    && input.description == GetValueWithFallback(AnnotationOf(alert, "description"), Getenv(env, "ALERT_DESCRIPTION"))
  }

  /** buildWorkflowInput; `timestamp` is the formatted invocation time. */
  method BuildWorkflowInput(alert: Option<AlertData>, source: string, env: Env, timestamp: string)
    returns (input: WorkflowInput)
    ensures InputFrom(input, alert, source, env, timestamp)
    ensures alert.None? ==>
      && input.alertName == Getenv(env, "ALERT_NAME") && input.status == Getenv(env, "ALERT_STATUS")
      && input.severity == Getenv(env, "ALERT_SEVERITY") && input.instance == Getenv(env, "INSTANCE")
      && input.summary == Getenv(env, "ALERT_SUMMARY") && input.description == Getenv(env, "ALERT_DESCRIPTION")
      && input.labels.None? && input.annotations.None?
  {
    // The fields of the struct under construction.
    var alertName, status, severity, instance, summary, description := "", "", "", "", "", "";
    var labels, annotations := None, None;

    if alert.Some? {
      var a := alert.value;
      status, labels, annotations := a.status, a.labels, a.annotations;

      if a.labels.Some? {
        alertName := Lookup(a.labels.value, "alertname");
        severity := Lookup(a.labels.value, "severity");
        instance := Lookup(a.labels.value, "instance");
      }

      if a.annotations.Some? {
        summary := Lookup(a.annotations.value, "summary");
        description := Lookup(a.annotations.value, "description");
      }
    }

    alertName := FallbackToEnv(alertName, env, "ALERT_NAME");
    status := FallbackToEnv(status, env, "ALERT_STATUS");
    severity := FallbackToEnv(severity, env, "ALERT_SEVERITY");
    instance := FallbackToEnv(instance, env, "INSTANCE");
    summary := FallbackToEnv(summary, env, "ALERT_SUMMARY");
    description := FallbackToEnv(description, env, "ALERT_DESCRIPTION");

    input := WorkflowInput(alertName, status, severity, instance, summary, description,
                           labels, annotations, timestamp, source);
  }

  /** The resource path of a workflow. */
  function WorkflowPath(projectId: string, location: string, workflowName: string): string
  {
    "projects/" + projectId + "/locations/" + location + "/workflows/" + workflowName
  }

  /** The path splits back into its components when none of them contains
      `/`, so distinct (project, location, name) give distinct paths. */
  lemma WorkflowPathComponents(projectId: string, location: string, workflowName: string)
    requires '/' !in projectId && '/' !in location && '/' !in workflowName
    ensures Split(WorkflowPath(projectId, location, workflowName), '/') ==
            ["projects", projectId, "locations", location, "workflows", workflowName]
  {
    var a, c, e := "projects", "locations", "workflows";
    assert "projects/" == a + ['/'];
    assert "/locations/" == ['/'] + c + ['/'];
    assert "/workflows/" == ['/'] + e + ['/'];
    assert WorkflowPath(projectId, location, workflowName) ==
      a + ['/'] + (projectId + ['/'] + (c + ['/'] + (location + ['/'] + (e + ['/'] + workflowName))));
    SplitSixPieces(a, projectId, c, location, e, workflowName, '/');
  }

  /** The CreateExecution request: the parent workflow and the argument. */
  datatype ExecutionRequest = ExecutionRequest(parent: string, argument: WorkflowInput)

  datatype ExecuteError =
    | ClientFailed(message: string)
    | CreateFailed(message: string)
    | WaitFailed(error: WaitError)

  /** executeWorkflow: build the client (`clientError` is the error of
      executions.NewClient, None when it is built), create the execution
      (its outcome, the execution name or the call's error, is `created`),
      then wait for it only when the configuration asks to. The request is
      None when no client was built, so that no CreateExecution is sent. */
  method ExecuteWorkflow(config: Config, workflowName: string, input: WorkflowInput, clientError: Option<string>,
                         created: Result<string, string>, polls: seq<Poll>, budget: nat)
    returns (request: Option<ExecutionRequest>, r: Result<(), ExecuteError>, pollCount: nat)
    ensures clientError.Some? ==> request.None? && r == Err(ClientFailed(clientError.value)) && pollCount == 0
    ensures clientError.None? ==>
              request == Some(ExecutionRequest(WorkflowPath(config.projectId, config.location, workflowName), input))
    ensures clientError.None? && created.Err? ==> r == Err(CreateFailed(created.error)) && pollCount == 0
    ensures clientError.None? && created.Ok? && !config.waitForCompletion ==> r == Ok(()) && pollCount == 0
    ensures clientError.None? && created.Ok? && config.waitForCompletion ==>
      var report := Monitor(polls, budget);
      && pollCount == report.polls
      && r == (if report.result.Ok? then Ok(()) else Err(WaitFailed(report.result.error)))
  {
    pollCount := 0;
    if clientError.Some? {
      return None, Err(ClientFailed(clientError.value)), 0;
    }

    var workflowPath := WorkflowPath(config.projectId, config.location, workflowName);
    request := Some(ExecutionRequest(workflowPath, input));

    if created.Err? {
      r := Err(CreateFailed(created.error));
      return;
    }

    if config.waitForCompletion {
      var report := WaitForExecution(polls, budget);
      pollCount := report.polls;
      r := if report.result.Ok? then Ok(()) else Err(WaitFailed(report.result.error));
      return;
    }

    r := Ok(());
  }

  datatype RunError =
    | ConfigInvalid(configError: ConfigError)
    | NameUnresolved(resolveError: ResolveError)
    | ExecutionError(executeError: ExecuteError)

  /** The configuration is valid and the workflow name resolves: main then
      always reaches executeWorkflow. */
  predicate NameResolves(env: Env, alert: Option<AlertData>)
  {
    && Getenv(env, "GCP_PROJECT_ID") != ""
    && (Getenv(env, "WORKFLOW_NAME") == "") != (Getenv(env, "WORKFLOW_NAME_FIELD") == "")
    && (Getenv(env, "WORKFLOW_NAME") != "" ||
        Sanitized(RawWorkflowName(Getenv(env, "WORKFLOW_NAME_FIELD"), alert, env)) != "")
  }

  /** One invocation (main): configuration, name, input, execution. The
      request is None when the process stops before the CreateExecution
      call; `name` is the resolved workflow name ("" before it is resolved). */
  method Run(env: Env, parsedTimeout: Option<int>, parsedWait: Option<bool>, alert: Option<AlertData>,
             timestamp: string, clientError: Option<string>, created: Result<string, string>,
             polls: seq<Poll>, budget: nat)
    returns (r: Result<(), RunError>, name: string, request: Option<ExecutionRequest>)
    ensures Getenv(env, "GCP_PROJECT_ID") == "" ||
            (Getenv(env, "WORKFLOW_NAME") == "") == (Getenv(env, "WORKFLOW_NAME_FIELD") == "")
            ==> r.Err? && r.error.ConfigInvalid? && request.None?
    ensures Getenv(env, "GCP_PROJECT_ID") == "" ==> r == Err(ConfigInvalid(MissingProjectId))
    ensures (Getenv(env, "GCP_PROJECT_ID") != "" && Getenv(env, "WORKFLOW_NAME") == "" &&
             Getenv(env, "WORKFLOW_NAME_FIELD") == "") ==> r == Err(ConfigInvalid(NoWorkflowName))
    ensures (Getenv(env, "GCP_PROJECT_ID") != "" && Getenv(env, "WORKFLOW_NAME") != "" &&
             Getenv(env, "WORKFLOW_NAME_FIELD") != "") ==> r == Err(ConfigInvalid(ConflictingWorkflowName))
    ensures (Getenv(env, "GCP_PROJECT_ID") != "" && Getenv(env, "WORKFLOW_NAME") == "" &&
             Getenv(env, "WORKFLOW_NAME_FIELD") != "") ==>
      var field := Getenv(env, "WORKFLOW_NAME_FIELD");
      var raw := RawWorkflowName(field, alert, env);
      && (raw == "" ==> r == Err(NameUnresolved(NameNotFound(field))))
      && (raw != "" && Sanitized(raw) == "" ==> r == Err(NameUnresolved(InvalidAfterSanitization(field))))
    ensures r.Err? && (r.error.ConfigInvalid? || r.error.NameUnresolved?) ==> request.None?
    ensures r.Ok? ==> request.Some? && clientError.None? && created.Ok?
    ensures
      var wait := if Getenv(env, "WAIT_FOR_COMPLETION") != "" && parsedWait.Some?
                  then parsedWait.value else DefaultWaitForCompletion;
      r.Ok? <==> request.Some? && created.Ok? && (wait ==> Monitor(polls, budget).result.Ok?)
    ensures request.Some? ==>
      && name != ""
      && request.value.parent ==
           WorkflowPath(Getenv(env, "GCP_PROJECT_ID"),
                        (if Getenv(env, "GCP_LOCATION") != "" then Getenv(env, "GCP_LOCATION") else DefaultLocation),
                        name)
      && InputFrom(request.value.argument, alert,
                   (if Getenv(env, "WORKFLOW_SOURCE") != "" then Getenv(env, "WORKFLOW_SOURCE") else DefaultSource),
                   env, timestamp)
    ensures NameResolves(env, alert) ==> (request.Some? <==> clientError.None?)
    ensures NameResolves(env, alert) && clientError.Some? ==> r == Err(ExecutionError(ClientFailed(clientError.value)))
    ensures NameResolves(env, alert) && clientError.None? ==>
      var wait := if Getenv(env, "WAIT_FOR_COMPLETION") != "" && parsedWait.Some?
                  then parsedWait.value else DefaultWaitForCompletion;
      var report := Monitor(polls, budget);
      r == (if created.Err? then Err(ExecutionError(CreateFailed(created.error)))
            else if !wait || report.result.Ok? then Ok(())
            else Err(ExecutionError(WaitFailed(report.result.error))))
    ensures request.Some? && Getenv(env, "WORKFLOW_NAME") != "" ==> name == Getenv(env, "WORKFLOW_NAME")
    ensures request.Some? && Getenv(env, "WORKFLOW_NAME") == "" ==>
              name == Sanitized(RawWorkflowName(Getenv(env, "WORKFLOW_NAME_FIELD"), alert, env))
  {
    name := "";
    var config := LoadConfig(env, parsedTimeout, parsedWait);
    if config.Err? {
      return Err(ConfigInvalid(config.error)), name, None;
    }

    var resolved := ResolveWorkflowName(config.value, alert, env);
    if resolved.Err? {
      return Err(NameUnresolved(resolved.error)), name, None;
    }
    name := resolved.value;

    var input := BuildWorkflowInput(alert, config.value.source, env, timestamp);
    var executed, pollCount;
    request, executed, pollCount := ExecuteWorkflow(config.value, name, input, clientError, created, polls, budget);
    r := if executed.Ok? then Ok(()) else Err(ExecutionError(executed.error));
  }
}
