/** The webhook action (actions/webhook-sender/src/main.go): the URL and
    timeout checks of main, the payload, the request headers and the
    success rule on the response status. */
module WebhookSender {
  import opened Alerts

  const DefaultTimeoutSeconds := 30
  const ContentType := "application/json"
  const UserAgent := "karo-webhook-sender/1.0.0"

  datatype Config = Config(webhookUrl: string, timeoutSeconds: int)

  datatype ConfigError = MissingWebhookUrl

  /** The configuration part of main. `parsedTimeout` is what strconv.Atoi
      returns for TIMEOUT_SECONDS (None for a parse error); it is used only
      when the variable is set. */
  method LoadConfig(env: Env, parsedTimeout: Option<int>) returns (r: Result<Config, ConfigError>)
    ensures r.Err? <==> Getenv(env, "WEBHOOK_URL") == ""
    ensures r.Err? ==> r.error == MissingWebhookUrl
    ensures r.Ok? ==>
      && r.value.webhookUrl == Getenv(env, "WEBHOOK_URL")
      && r.value.timeoutSeconds ==
           (if Getenv(env, "TIMEOUT_SECONDS") != "" && parsedTimeout.Some?
            then parsedTimeout.value else DefaultTimeoutSeconds)
  {
    var webhookUrl := Getenv(env, "WEBHOOK_URL");
    if webhookUrl == "" {
      return Err(MissingWebhookUrl);
    }

    var timeoutStr := Getenv(env, "TIMEOUT_SECONDS");
    var timeout := DefaultTimeoutSeconds;
    if timeoutStr != "" {
      if parsedTimeout.Some? {
        timeout := parsedTimeout.value;
      }
    }
    return Ok(Config(webhookUrl, timeout));
  }

  /** The JSON body sent to the webhook. */
  datatype WebhookPayload = WebhookPayload(
    alertName: string,
    status: string,
    severity: string,
    instance: string,
    summary: string,
    description: string,
    labels: Option<map<string, string>>,
    annotations: Option<map<string, string>>,
    timestamp: string)

  /** The field equations of buildWebhookPayload: labels, annotations and
      the timestamp as given, and each of the six text fields the record
      value when it is non-empty, otherwise its one variable. */
  predicate PayloadFrom(payload: WebhookPayload, alert: AlertData, env: Env, timestamp: string)
  {
    && payload.labels == alert.labels && payload.annotations == alert.annotations
    && payload.timestamp == timestamp
    && payload.status == GetValueWithFallback(alert.status, Getenv(env, "ALERT_STATUS"))
    && payload.alertName == GetValueWithFallback(MapValue(alert.labels, "alertname"), Getenv(env, "ALERT_NAME"))
    && payload.severity == GetValueWithFallback(MapValue(alert.labels, "severity"), Getenv(env, "ALERT_SEVERITY"))
    && payload.instance == GetValueWithFallback(MapValue(alert.labels, "instance"), Getenv(env, "INSTANCE"))
    && payload.summary ==
         GetValueWithFallback(MapValue(alert.annotations, "summary"), Getenv(env, "ALERT_SUMMARY"))
    && payload.description ==
         GetValueWithFallback(MapValue(alert.annotations, "description"), Getenv(env, "ALERT_DESCRIPTION"))
  }

  /** buildWebhookPayload. The record is a value here (the zero record when
      ALERT_JSON is unset or does not parse); `timestamp` is the formatted
      invocation time. */
  method BuildWebhookPayload(alert: AlertData, env: Env, timestamp: string) returns (payload: WebhookPayload)
    ensures PayloadFrom(payload, alert, env, timestamp)
    ensures alert.labels.None? ==>
      && payload.alertName == Getenv(env, "ALERT_NAME")
      && payload.severity == Getenv(env, "ALERT_SEVERITY")
      && payload.instance == Getenv(env, "INSTANCE")
    ensures alert.annotations.None? ==>
      && payload.summary == Getenv(env, "ALERT_SUMMARY")
      && payload.description == Getenv(env, "ALERT_DESCRIPTION")
  {
    // The fields of the payload under construction.
    var status, labels, annotations := alert.status, alert.labels, alert.annotations;
    var alertName, severity, instance, summary, description;

    if alert.labels.Some? {
      alertName := GetValueWithFallback(Lookup(alert.labels.value, "alertname"), Getenv(env, "ALERT_NAME"));
      severity := GetValueWithFallback(Lookup(alert.labels.value, "severity"), Getenv(env, "ALERT_SEVERITY"));
      instance := GetValueWithFallback(Lookup(alert.labels.value, "instance"), Getenv(env, "INSTANCE"));
    } else {
      alertName := Getenv(env, "ALERT_NAME");
      severity := Getenv(env, "ALERT_SEVERITY");
      instance := Getenv(env, "INSTANCE");
    }

    if alert.annotations.Some? {
      summary := GetValueWithFallback(Lookup(alert.annotations.value, "summary"), Getenv(env, "ALERT_SUMMARY"));
      description :=
        GetValueWithFallback(Lookup(alert.annotations.value, "description"), Getenv(env, "ALERT_DESCRIPTION"));
    } else {
      summary := Getenv(env, "ALERT_SUMMARY");
      description := Getenv(env, "ALERT_DESCRIPTION");
    }

    status := FallbackToEnv(status, env, "ALERT_STATUS");

    payload := WebhookPayload(alertName, status, severity, instance, summary, description,
                              labels, annotations, timestamp);
  }

  /** The POST request being prepared; its header map is set in place. */
  class Request {
    var url: string
    var body: WebhookPayload
    var header: map<string, string>

    /** http.NewRequest: a request without headers. */
    constructor (url: string, body: WebhookPayload)
      ensures this.url == url && this.body == body && header == map[]
    {
      this.url := url;
      this.body := body;
      header := map[];
    }

    /** Header.Set: the key now has exactly this value; every other header
        is unchanged. */
    method SetHeader(key: string, value: string)
      modifies this
      ensures header == old(header)[key := value]
      ensures url == old(url) && body == old(body)
    {
      header := header[key := value];
    }
  }

  /** The headers a request carries once sendWebhook has set them. */
  function Headers(authHeader: string): (h: map<string, string>)
  {
    var fixed := map["Content-Type" := ContentType, "User-Agent" := UserAgent];
    if authHeader != "" then fixed["Authorization" := authHeader] else fixed
  }

  /** Content-Type and User-Agent are always present with their fixed
      values; Authorization is present iff AUTH_HEADER is non-empty, and
      then carries it; no other header is set. */
  lemma HeadersContents(authHeader: string)
    ensures "Content-Type" in Headers(authHeader) && Headers(authHeader)["Content-Type"] == "application/json"
    ensures "User-Agent" in Headers(authHeader) && Headers(authHeader)["User-Agent"] == "karo-webhook-sender/1.0.0"
    ensures "Authorization" in Headers(authHeader) <==> authHeader != ""
    ensures "Authorization" in Headers(authHeader) ==> Headers(authHeader)["Authorization"] == authHeader
    ensures Headers(authHeader).Keys <= {"Content-Type", "User-Agent", "Authorization"}
  {
  }

  /** The header block of sendWebhook, on a request that has no headers yet. */
  method SetHeaders(req: Request, env: Env)
    requires req.header == map[]
    modifies req
    ensures req.header == Headers(Getenv(env, "AUTH_HEADER"))
    ensures req.url == old(req.url) && req.body == old(req.body)
  {
    req.SetHeader("Content-Type", ContentType);
    req.SetHeader("User-Agent", UserAgent);

    var authHeader := Getenv(env, "AUTH_HEADER");
    if authHeader != "" {
      req.SetHeader("Authorization", authHeader);
    }
  }

  datatype SendError =
    | CreateRequestFailed(message: string)
    | SendFailed(message: string)
    | StatusRejected(statusCode: int, body: string)

  /** The check on the response: a 2xx status succeeds; any other status
      is an error that carries the status code and the response body. */
  function CheckStatus(statusCode: int, body: string): (r: Result<(), SendError>)
    ensures r.Ok? <==> 200 <= statusCode < 300
    ensures r.Err? ==> r.error == StatusRejected(statusCode, body)
  {
    if statusCode < 200 || statusCode >= 300 then Err(StatusRejected(statusCode, body)) else Ok(())
  }

  /** The result of handing the request to the HTTP client: the response's
      status code and body, or the error of the call. */
  datatype Exchange = Responded(statusCode: int, body: string) | TransportFailed(message: string)

  /** The request handed to `client.Do`: URL, payload record and the headers
      set on it (the JSON encoding and the headers the transport adds are not
      part of the model). */
  datatype SentRequest = SentRequest(url: string, body: WebhookPayload, header: map<string, string>)

  /** sendWebhook after marshalling. `requestError` is the error of
      http.NewRequest (None when the request is created) and `exchange` the
      outcome of client.Do. */
  method SendWebhook(url: string, payload: WebhookPayload, env: Env,
                     requestError: Option<string>, exchange: Exchange)
    returns (r: Result<(), SendError>, sent: Option<SentRequest>)
    ensures requestError.Some? ==> r == Err(CreateRequestFailed(requestError.value)) && sent.None?
    ensures requestError.None? ==>
      && sent == Some(SentRequest(url, payload, Headers(Getenv(env, "AUTH_HEADER"))))
      && r == (match exchange
               case TransportFailed(message) => Err(SendFailed(message))
               case Responded(statusCode, body) => CheckStatus(statusCode, body))
  {
    if requestError.Some? {
      return Err(CreateRequestFailed(requestError.value)), None;
    }

    var req := new Request(url, payload);
    SetHeaders(req, env);
    sent := Some(SentRequest(req.url, req.body, req.header));

    match exchange {
      case TransportFailed(message) =>
        r := Err(SendFailed(message));
      case Responded(statusCode, body) =>
        r := CheckStatus(statusCode, body);
    }
  }

  datatype RunError = ConfigInvalid(configError: ConfigError) | SendError(sendError: SendError)

  /** One invocation (main): configuration, payload, send. An empty
      WEBHOOK_URL stops the process before any payload is built. */
  method Run(env: Env, parsedTimeout: Option<int>, alert: AlertData, timestamp: string,
             requestError: Option<string>, exchange: Exchange)
    returns (r: Result<(), RunError>, payload: Option<WebhookPayload>, sent: Option<SentRequest>)
    ensures Getenv(env, "WEBHOOK_URL") == "" ==>
              r == Err(ConfigInvalid(MissingWebhookUrl)) && payload.None? && sent.None?
    ensures Getenv(env, "WEBHOOK_URL") != "" ==> payload.Some? && PayloadFrom(payload.value, alert, env, timestamp)
    ensures sent.Some? <==> Getenv(env, "WEBHOOK_URL") != "" && requestError.None?
    ensures sent.Some? ==>
      && sent.value.url == Getenv(env, "WEBHOOK_URL") && payload.Some? && sent.value.body == payload.value
      && sent.value.header == Headers(Getenv(env, "AUTH_HEADER"))
    ensures r.Ok? <==>
      && Getenv(env, "WEBHOOK_URL") != "" && requestError.None?
      && exchange.Responded? && 200 <= exchange.statusCode < 300
    ensures Getenv(env, "WEBHOOK_URL") != "" ==>
      r == (if requestError.Some? then Err(SendError(CreateRequestFailed(requestError.value)))
            else match exchange
                 case TransportFailed(m) => Err(SendError(SendFailed(m)))
                 case Responded(c, b) => if 200 <= c < 300 then Ok(()) else Err(SendError(StatusRejected(c, b))))
  {
    var config := LoadConfig(env, parsedTimeout);
    if config.Err? {
      return Err(ConfigInvalid(config.error)), None, None;
    }

    var built := BuildWebhookPayload(alert, env, timestamp);
    payload := Some(built);

    var sendResult;
    sendResult, sent := SendWebhook(config.value.webhookUrl, built, env, requestError, exchange);
    r := if sendResult.Ok? then Ok(()) else Err(SendError(sendResult.error));
  }
}
