/** The HTTP-facing handlers: `/api/submit`, `/api/log`, `/api/test-log` and
    `/api/health`. Each maps one request, plus the delivery outcome, to a
    status code and a JSON body. */
module Endpoints {
  import opened Js
  import Config
  import Flume

  /** The result of `await c.req.json()`: the parsed body, or the message of
      the exception it threw. */
  datatype Parsed = Parsed(body: Json) | ParseError(message: string)

  datatype HttpResponse = HttpResponse(status: nat, body: Json)

  const TestLogType := "test_log"

  /** The two handlers that forward a request body. */
  datatype Route = Submit | Log {

    function EventType(): string {
      match this
      case Submit => Flume.DefaultEventType
      case Log => "backend_log"
    }

    function SuccessMessage(): string {
      match this
      case Submit => "Form submitted successfully and logged to Flume"
      case Log => "Log sent to Flume agent"
    }

    function FailureMessage(): string {
      match this
      case Submit => "Form submitted but failed to log to Flume"
      case Log => "Failed to send log to Flume"
    }

    /** The message of the handler's own `catch`. */
    function ErrorMessage(): string {
      match this
      case Submit => "Error processing form submission"
      case Log => "Error sending log"
    }
  }

  /** `POST /api/submit` and `POST /api/log`. `sendTime` is the clock reading
      inside `sendToFlume`, `replyTime` the one taken for the reply. */
  function HandlePost(route: Route, cfg: Config.FlumeConfig, parsed: Parsed, sendTime: string, replyTime: string,
                      collector: Flume.Request -> Flume.Reply): (r: HttpResponse)
    ensures r.status == 200 || r.status == 500
    ensures r.status == 200 <==>
      parsed.Parsed? && Flume.SendToFlume(cfg, parsed.body, Some(route.EventType()), sendTime, collector).outcome.Sent?
    ensures Field(r.body, "success") == Some(JBool(r.status == 200))
    ensures r.body.JObject?
    ensures r.status == 200 ==> r.body.fields.Keys == {"success", "message", "timestamp"}
    ensures r.status == 500 ==> r.body.fields.Keys == {"success", "message", "error"}
    ensures r.status == 200 ==>
      && Field(r.body, "message") == Some(JString(route.SuccessMessage()))
      && Field(r.body, "timestamp") == Some(JString(replyTime))
      && Field(r.body, "error") == None
    ensures parsed.ParseError? ==>
      && Field(r.body, "message") == Some(JString(route.ErrorMessage()))
      && Field(r.body, "error") == Some(JString(parsed.message))
    ensures parsed.Parsed? && r.status == 500 ==>
      var outcome := Flume.SendToFlume(cfg, parsed.body, Some(route.EventType()), sendTime, collector).outcome;
      && outcome.Failed?
      && Field(r.body, "message") == Some(JString(route.FailureMessage()))
      && Field(r.body, "error") == Some(JString(outcome.error))
  {
    match parsed
    case ParseError(m) =>
      HttpResponse(500, JObject(map["success" := JBool(false), "message" := JString(route.ErrorMessage()),
                                    "error" := JString(m)]))
    case Parsed(body) =>
      match Flume.SendToFlume(cfg, body, Some(route.EventType()), sendTime, collector).outcome
      case Sent =>
        HttpResponse(200, JObject(map["success" := JBool(true), "message" := JString(route.SuccessMessage()),
                                      "timestamp" := JString(replyTime)]))
      case Failed(e) =>
        HttpResponse(500, JObject(map["success" := JBool(false), "message" := JString(route.FailureMessage()),
                                      "error" := JString(e)]))
  }

  /** The fixed diagnostic event `/api/test-log` sends, carrying the request's
      `User-Agent` header (`None` when the header is absent). */
  function TestLogEvent(userAgentHeader: Option<string>): (e: Json)
    ensures e.JObject? && e.fields.Keys == {"level", "message", "component", "userAgent"}
    ensures Flume.HasTruthyUserAgent(e)
    ensures e.fields["level"] == JString("INFO")
    ensures e.fields["message"] == JString("Test log message from web app")
    ensures e.fields["component"] == JString("test-endpoint")
    ensures e.fields["userAgent"] == JString(StringOr(userAgentHeader, Flume.UnknownAgent))
  {
    JObject(map["level" := JString("INFO"), "message" := JString("Test log message from web app"),
                "component" := JString("test-endpoint"),
                "userAgent" := JString(StringOr(userAgentHeader, Flume.UnknownAgent))])
  }

  /** `POST /api/test-log`. The reply is 200 whatever the delivery outcome;
      `error` is left out of the body (it is `undefined`) on success. */
  function TestLog(cfg: Config.FlumeConfig, userAgentHeader: Option<string>, sendTime: string,
                   collector: Flume.Request -> Flume.Reply): (r: HttpResponse)
    ensures r.status == 200
    ensures
      var d := Flume.SendToFlume(cfg, TestLogEvent(userAgentHeader), Some(TestLogType), sendTime, collector);
      && d.request.Some?
      && d.request.value.events[0].headers.eventType == TestLogType
      && d.request.value.events[0].headers.userAgent == JString(StringOr(userAgentHeader, Flume.UnknownAgent))
      && r.body.JObject?
      && r.body.fields.Keys == (if d.outcome.Sent? then {"success", "message"} else {"success", "message", "error"})
      && Field(r.body, "success") == Some(JBool(d.outcome.Sent?))
      && Field(r.body, "message") ==
           Some(JString(if d.outcome.Sent? then "Test log sent successfully" else "Failed to send test log"))
      && Field(r.body, "error") == (if d.outcome.Sent? then None else Some(JString(d.outcome.error)))
  {
    var d := Flume.SendToFlume(cfg, TestLogEvent(userAgentHeader), Some(TestLogType), sendTime, collector);
    match d.outcome
    case Sent =>
      HttpResponse(200, JObject(map["success" := JBool(true), "message" := JString("Test log sent successfully")]))
    case Failed(e) =>
      HttpResponse(200, JObject(map["success" := JBool(false), "message" := JString("Failed to send test log"),
                                    "error" := JString(e)]))
  }

  /** `GET /api/health`: a fixed healthy status and the configured collector
      address; the collector is never contacted. */
  function Health(cfg: Config.FlumeConfig, now: string): (r: HttpResponse)
    ensures r.status == 200
    ensures r.body.JObject? && r.body.fields.Keys == {"status", "timestamp", "flumeAgent"}
    ensures Field(r.body, "status") == Some(JString("healthy"))
    ensures Field(r.body, "timestamp") == Some(JString(now))
    ensures Field(r.body, "flumeAgent") == Some(JString(Config.AgentAddress(cfg)))
    ensures Config.CollectorUrl(cfg) == "http://" + Field(r.body, "flumeAgent").value.s
  {
    HttpResponse(200, JObject(map["status" := JString("healthy"), "timestamp" := JString(now),
                                  "flumeAgent" := JString(Config.AgentAddress(cfg))]))
  }
}
