/** The Pub/Sub publishing action (actions/gcp-pubsub/src/main.go):
    configuration, the published message and its attribute map. */
module GcpPubSub {
  import opened Alerts

  const DefaultTimeoutSeconds := 30
  const DefaultSource := "karo"

  datatype Config = Config(
    projectId: string,
    topicId: string,
    serviceAccountPath: string,
    timeoutSeconds: int,
    source: string)

  datatype ConfigError = MissingProjectId | MissingTopicId

  /** loadConfig. `parsedTimeout` is what strconv.Atoi returns for
      TIMEOUT_SECONDS (None for a parse error); it is used only when the
      variable is set. */
  method LoadConfig(env: Env, parsedTimeout: Option<int>) returns (r: Result<Config, ConfigError>)
    ensures Getenv(env, "GCP_PROJECT_ID") == "" ==> r == Err(MissingProjectId)
    ensures (Getenv(env, "GCP_PROJECT_ID") != "" && Getenv(env, "PUBSUB_TOPIC_ID") == "") ==>
              r == Err(MissingTopicId)
    ensures r.Ok? <==> Getenv(env, "GCP_PROJECT_ID") != "" && Getenv(env, "PUBSUB_TOPIC_ID") != ""
    ensures r.Ok? ==>
      var c := r.value;
      && c.projectId == Getenv(env, "GCP_PROJECT_ID")
      && c.topicId == Getenv(env, "PUBSUB_TOPIC_ID")
      && c.serviceAccountPath == Getenv(env, "GOOGLE_APPLICATION_CREDENTIALS")
      && c.timeoutSeconds ==
           (if Getenv(env, "TIMEOUT_SECONDS") != "" && parsedTimeout.Some?
            then parsedTimeout.value else DefaultTimeoutSeconds)
      && c.source == (if Getenv(env, "MESSAGE_SOURCE") != "" then Getenv(env, "MESSAGE_SOURCE") else DefaultSource)
  {
    var config := Config(
      Getenv(env, "GCP_PROJECT_ID"),
      Getenv(env, "PUBSUB_TOPIC_ID"),
      Getenv(env, "GOOGLE_APPLICATION_CREDENTIALS"),
      DefaultTimeoutSeconds,
      DefaultSource);

    if config.projectId == "" {
      return Err(MissingProjectId);
    }
    if config.topicId == "" {
      return Err(MissingTopicId);
    }

    if Getenv(env, "TIMEOUT_SECONDS") != "" {
      if parsedTimeout.Some? {
        config := config.(timeoutSeconds := parsedTimeout.value);
      }
    }

    var source := Getenv(env, "MESSAGE_SOURCE");
    if source != "" {
      config := config.(source := source);
    }

    return Ok(config);
  }

  /** The message published to the topic (its JSON is the message data). */
  datatype PubSubMessage = PubSubMessage(
    alertName: string,
    status: string,
    severity: string,
    instance: string,
    summary: string,
    description: string,
    labels: Option<map<string, string>>,
    annotations: Option<map<string, string>>,
    timestamp: string,
    source: string)

  /** The field equations of buildMessage: source and timestamp as given,
      labels and annotations copied from a present record, and each of the
      six text fields the record value when it is non-empty, otherwise its
      one variable. */
  predicate MessageFrom(message: PubSubMessage, alert: Option<AlertData>, source: string, env: Env, timestamp: string)
  {
    && message.source == source && message.timestamp == timestamp
    && message.labels == (if alert.Some? then alert.value.labels else None)
    && message.annotations == (if alert.Some? then alert.value.annotations else None)
    && message.alertName == GetValueWithFallback(LabelOf(alert, "alertname"), Getenv(env, "ALERT_NAME"))
    && message.status == GetValueWithFallback(StatusOf(alert), Getenv(env, "ALERT_STATUS"))
    && message.severity == GetValueWithFallback(LabelOf(alert, "severity"), Getenv(env, "ALERT_SEVERITY"))
    && message.instance == GetValueWithFallback(LabelOf(alert, "instance"), Getenv(env, "INSTANCE"))
    && message.summary == GetValueWithFallback(AnnotationOf(alert, "summary"), Getenv(env, "ALERT_SUMMARY"))
    && message.description ==
         GetValueWithFallback(AnnotationOf(alert, "description"), Getenv(env, "ALERT_DESCRIPTION"))
  }

  /** buildMessage; `timestamp` is the formatted invocation time. */
  method BuildMessage(alert: Option<AlertData>, source: string, env: Env, timestamp: string)
    returns (message: PubSubMessage)
    ensures MessageFrom(message, alert, source, env, timestamp)
    ensures alert.None? ==>
      && message.alertName == Getenv(env, "ALERT_NAME") && message.status == Getenv(env, "ALERT_STATUS")
      && message.severity == Getenv(env, "ALERT_SEVERITY") && message.instance == Getenv(env, "INSTANCE")
      && message.summary == Getenv(env, "ALERT_SUMMARY") && message.description == Getenv(env, "ALERT_DESCRIPTION")
      && message.labels.None? && message.annotations.None?
  {
    // The fields of the message under construction.
    var alertName, status, severity, instance, summary, description := "", "", "", "", "", "";
    var labels, annotations := None, None;

    if alert.Some? {
      var a := alert.value;
      status, labels, annotations := a.status, a.labels, a.annotations;

      if a.labels.Some? {
        alertName := Lookup(a.labels.value, "alertname");
        severity := Lookup(a.labels.value, "severity");
        instance := Lookup(a.labels.value, "instance");
      }

      if a.annotations.Some? {
        summary := Lookup(a.annotations.value, "summary");
        description := Lookup(a.annotations.value, "description");
      }
    }

    alertName := FallbackToEnv(alertName, env, "ALERT_NAME");
    status := FallbackToEnv(status, env, "ALERT_STATUS");
    severity := FallbackToEnv(severity, env, "ALERT_SEVERITY");
    instance := FallbackToEnv(instance, env, "INSTANCE");
    summary := FallbackToEnv(summary, env, "ALERT_SUMMARY");
    description := FallbackToEnv(description, env, "ALERT_DESCRIPTION");

    message := PubSubMessage(alertName, status, severity, instance, summary, description,
                             labels, annotations, timestamp, source);
  }

  /** Without a record, ALERT_NAME=EnvTest gives the alert name `EnvTest`. */
  method EnvTestAlertName(env: Env, source: string, timestamp: string) returns (message: PubSubMessage)
    requires Getenv(env, "ALERT_NAME") == "EnvTest"
    ensures message.alertName == "EnvTest"
  {
    message := BuildMessage(None, source, env, timestamp);
  }

  /** The attribute names of a published message. */
  const AttributeKeys: set<string> := {"alertName", "status", "severity", "source", "timestamp"}

  /** The attribute map attached to the published message. */
  function Attributes(message: PubSubMessage): (attrs: map<string, string>)
    ensures attrs.Keys == AttributeKeys
  {
    map[
      "alertName" := message.alertName,
      "status" := message.status,
      "severity" := message.severity,
      "source" := message.source,
      "timestamp" := message.timestamp
    ]
  }

  /** The attributes carry exactly five fields of the message: two messages
      have the same attributes iff they agree on the alert name, status,
      severity, source and timestamp; instance, summary, description,
      labels and annotations travel only in the message data. */
  lemma AttributesIff(m1: PubSubMessage, m2: PubSubMessage)
    ensures Attributes(m1) == Attributes(m2) <==>
      && m1.alertName == m2.alertName
      && m1.status == m2.status
      && m1.severity == m2.severity
      && m1.source == m2.source
      && m1.timestamp == m2.timestamp
  {
    if Attributes(m1) == Attributes(m2) {
      assert Attributes(m1)["alertName"] == Attributes(m2)["alertName"];
      assert Attributes(m1)["status"] == Attributes(m2)["status"];
      assert Attributes(m1)["severity"] == Attributes(m2)["severity"];
      assert Attributes(m1)["source"] == Attributes(m2)["source"];
      assert Attributes(m1)["timestamp"] == Attributes(m2)["timestamp"];
    }
  }

  /** There are exactly five attributes. */
  lemma AttributeCount(message: PubSubMessage)
    ensures |Attributes(message)| == 5
  {
    assert |AttributeKeys| == 5;
  }

  /** The publish call: the topic, the message data and its attributes. */
  datatype PublishRequest = PublishRequest(
    projectId: string,
    topicId: string,
    data: PubSubMessage,
    attributes: map<string, string>)

  datatype RunError =
    | ConfigInvalid(configError: ConfigError)
    | ClientFailed(message: string)
    | PublishFailed(message: string)

  /** One invocation (main): configuration, message, publish. `clientError`
      is the error of pubsub.NewClient (None when the client is built) and
      `published` the outcome of publishing (the message ID or the error);
      the request is None when the process stops before the Publish call. */
  method Run(env: Env, parsedTimeout: Option<int>, alert: Option<AlertData>, timestamp: string,
             clientError: Option<string>, published: Result<string, string>)
    returns (r: Result<string, RunError>, request: Option<PublishRequest>)
    ensures (Getenv(env, "GCP_PROJECT_ID") == "" || Getenv(env, "PUBSUB_TOPIC_ID") == "") ==>
              r.Err? && r.error.ConfigInvalid? && request.None?
    ensures Getenv(env, "GCP_PROJECT_ID") == "" ==> r == Err(ConfigInvalid(MissingProjectId))
    ensures Getenv(env, "GCP_PROJECT_ID") != "" && Getenv(env, "PUBSUB_TOPIC_ID") == "" ==>
              r == Err(ConfigInvalid(MissingTopicId))
    ensures (Getenv(env, "GCP_PROJECT_ID") != "" && Getenv(env, "PUBSUB_TOPIC_ID") != "" && clientError.Some?) ==>
              r == Err(ClientFailed(clientError.value)) && request.None?
    ensures (Getenv(env, "GCP_PROJECT_ID") != "" && Getenv(env, "PUBSUB_TOPIC_ID") != "" && clientError.None?) ==>
      && request.Some?
      && request.value.projectId == Getenv(env, "GCP_PROJECT_ID")
      && request.value.topicId == Getenv(env, "PUBSUB_TOPIC_ID")
      && request.value.attributes == Attributes(request.value.data)
      && MessageFrom(request.value.data, alert,
                     (if Getenv(env, "MESSAGE_SOURCE") != "" then Getenv(env, "MESSAGE_SOURCE") else DefaultSource),
                     env, timestamp)
      && r == (if published.Ok? then Ok(published.value) else Err(PublishFailed(published.error)))
  {
    var config := LoadConfig(env, parsedTimeout);
    if config.Err? {
      return Err(ConfigInvalid(config.error)), None;
    }

    var message := BuildMessage(alert, config.value.source, env, timestamp);
    if clientError.Some? {
      return Err(ClientFailed(clientError.value)), None;
    }
    request := Some(PublishRequest(config.value.projectId, config.value.topicId, message, Attributes(message)));
    r := if published.Ok? then Ok(published.value) else Err(PublishFailed(published.error));
  }
}
