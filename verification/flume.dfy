/** `sendToFlume`: builds the collector's wire envelope around one event,
    makes one POST to the collector, and turns whatever happens into an
    outcome record instead of an exception. */
module Flume {
  import opened Js
  import Config
  import Decimal

  const Source := "web-app"
  const DefaultEventType := "user_interaction"
  const UnknownAgent := "unknown"
  const StatusPrefix := "Flume agent responded with status: "
  /** The TypeError V8 raises for `data.userAgent` when `data` is `null`. */
  const NullDataMessage := "Cannot read properties of null (reading 'userAgent')"

  /** The record that is JSON-encoded into the wire body. */
  datatype Payload = Payload(timestamp: string, eventType: string, data: Json, source: string, userAgent: Json)

  datatype Headers = Headers(eventType: string, source: string, userAgent: Json, timestamp: string)

  /** The base64 text of `JSON.stringify(value)`. The text itself is kept
      symbolic: the encoding is a library call outside this model. */
  datatype Body = Base64Json(value: Json)

  datatype WireEvent = WireEvent(headers: Headers, body: Body)

  /** The outbound POST as handed to `fetch`. */
  datatype Request = Request(url: string, verb: string, contentType: string, events: seq<WireEvent>)

  /** What `fetch` delivers: a rejection with an error message, or a reply. */
  datatype Reply = TransportError(message: string) | Replied(status: nat)

  /** `{success: true, message}` or `{success: false, error}`. */
  datatype Outcome = Sent | Failed(error: string)

  /** The request that was made, if any, and its outcome. */
  datatype Delivery = Delivery(request: Option<Request>, outcome: Outcome)

  /** Reading `data.userAgent`: `null` throws, objects give their own member
      (or `undefined`), and no other JSON value has a `userAgent` property. */
  function ReadUserAgent(data: Json): Completion<Option<Json>> {
    match data
    case JNull => Abrupt(NullDataMessage)
    case JObject(fields) => Normal(if "userAgent" in fields then Some(fields["userAgent"]) else None)
    case _ => Normal(None)
  }

  predicate HasTruthyUserAgent(data: Json) {
    data.JObject? && "userAgent" in data.fields && Truthy(data.fields["userAgent"])
  }

  /** `data.userAgent || 'unknown'`. */
  function ResolveUserAgent(data: Json): (r: Completion<Json>)
    ensures r.Abrupt? <==> data == JNull
    ensures r.Abrupt? ==> r.message == NullDataMessage
    ensures r.Normal? ==> Truthy(r.value)
    ensures r.Normal? && HasTruthyUserAgent(data) ==> r.value == data.fields["userAgent"]
    ensures r.Normal? && !HasTruthyUserAgent(data) ==> r.value == JString(UnknownAgent)
  {
    match ReadUserAgent(data)
    case Abrupt(m) => Abrupt(m)
    case Normal(ua) => Normal(Or(ua, JString(UnknownAgent)))
  }

  const PayloadKeys := {"timestamp", "eventType", "data", "source", "userAgent"}

  /** Reads a payload object back; `None` when a member is missing, extra or
      of the wrong kind. */
  function DecodePayload(j: Json): Option<Payload> {
    if && j.JObject?
       && j.fields.Keys == PayloadKeys
       && "timestamp" in j.fields && j.fields["timestamp"].JString?
       && "eventType" in j.fields && j.fields["eventType"].JString?
       && "data" in j.fields
       && "source" in j.fields && j.fields["source"].JString?
       && "userAgent" in j.fields
    then Some(Payload(j.fields["timestamp"].s, j.fields["eventType"].s, j.fields["data"],
                      j.fields["source"].s, j.fields["userAgent"]))
    else None
  }

  /** The object `{timestamp, eventType, data, source, userAgent}`. */
  function PayloadJson(p: Payload): (j: Json)
    ensures j.JObject? && j.fields.Keys == PayloadKeys
    ensures DecodePayload(j) == Some(p)
  {
    JObject(map["timestamp" := JString(p.timestamp), "eventType" := JString(p.eventType),
                "data" := p.data, "source" := JString(p.source), "userAgent" := p.userAgent])
  }

  /** Base64-decoding and JSON-parsing a wire body. */
  function DecodeBody(b: Body): Option<Payload> {
    DecodePayload(b.value)
  }

  /** Everything `sendToFlume` does before the network call: the payload and
      the one-element wire array, both from one captured `timestamp`. */
  function BuildWire(data: Json, eventType: string, timestamp: string): (r: Completion<seq<WireEvent>>)
    ensures r.Abrupt? <==> data == JNull
    ensures r.Abrupt? ==> r.message == NullDataMessage
    ensures r.Normal? ==> |r.value| == 1
    ensures r.Normal? ==>
      var h := r.value[0].headers;
      && h.eventType == eventType
      && h.source == Source
      && h.timestamp == timestamp
      && h.userAgent == (if HasTruthyUserAgent(data) then data.fields["userAgent"] else JString(UnknownAgent))
    ensures r.Normal? ==> r.value[0].body.value.JObject? && r.value[0].body.value.fields.Keys == PayloadKeys
    ensures r.Normal? ==>
      var h := r.value[0].headers;
      DecodeBody(r.value[0].body) == Some(Payload(h.timestamp, h.eventType, data, h.source, h.userAgent))
  {
    match ResolveUserAgent(data)
    case Abrupt(m) => Abrupt(m)
    case Normal(ua) =>
      var payload := Payload(timestamp, eventType, data, Source, ua);
      Normal([WireEvent(Headers(eventType, Source, ua, timestamp), Base64Json(PayloadJson(payload)))])
  }

  /** The failure text for a non-2xx reply. */
  function StatusMessage(status: nat): (m: string)
    ensures |m| > |StatusPrefix|
    ensures m[..|StatusPrefix|] == StatusPrefix && m[|StatusPrefix|..] == Decimal.ToDecimal(status)
    ensures StatusOfMessage(m) == Some(status)
  {
    var digits := Decimal.ToDecimal(status);
    Decimal.ParseToDecimal(status);
    assert (StatusPrefix + digits)[..|StatusPrefix|] == StatusPrefix;
    assert (StatusPrefix + digits)[|StatusPrefix|..] == digits;
    StatusPrefix + digits
  }

  /** Reads the status code back out of a failure text. */
  function StatusOfMessage(m: string): Option<nat> {
    if |m| >= |StatusPrefix| && m[..|StatusPrefix|] == StatusPrefix
    then Decimal.Parse(m[|StatusPrefix|..])
    else None
  }

  /** `response.ok` of the fetch API: a 2xx status. */
  predicate IsOk(status: nat) {
    200 <= status < 300
  }

  /** The `if (!response.ok) throw` check together with the `catch` that
      turns a rejection or that throw into `{success: false, error}`. */
  function Classify(reply: Reply): (o: Outcome)
    ensures o.Sent? <==> reply.Replied? && 200 <= reply.status <= 299
    ensures reply.TransportError? ==> o == Failed(reply.message)
    ensures o.Failed? && reply.Replied? ==> o.error == StatusMessage(reply.status)
    ensures o.Failed? && reply.Replied? ==> StatusOfMessage(o.error) == Some(reply.status)
  {
    match reply
    case TransportError(m) => Failed(m)
    case Replied(status) => if IsOk(status) then Sent else Failed(StatusMessage(status))
  }

  /** The event type after the default parameter: only `undefined` is
      replaced, so an empty string is kept. */
  function EventTypeOrDefault(eventType: Option<string>): string {
    match eventType
    case None => DefaultEventType
    case Some(t) => t
  }

  /** `sendToFlume(data, eventType)`, with `fetch` as the `collector`
      parameter. It never throws: building errors and delivery errors alike
      become a `Failed` outcome. */
  function SendToFlume(cfg: Config.FlumeConfig, data: Json, eventType: Option<string>, timestamp: string,
                       collector: Request -> Reply): (d: Delivery)
    ensures d.request.None? <==> data == JNull
    ensures d.request.None? ==> d.outcome == Failed(NullDataMessage)
    ensures d.request.Some? ==>
      var req := d.request.value;
      && req.url == "http://" + Config.AgentAddress(cfg)
      && req.verb == "POST"
      && req.contentType == "application/json"
      && BuildWire(data, EventTypeOrDefault(eventType), timestamp) == Normal(req.events)
    ensures d.outcome.Sent? <==>
      d.request.Some? && collector(d.request.value).Replied? && IsOk(collector(d.request.value).status)
    ensures d.request.Some? && collector(d.request.value).TransportError? ==>
      d.outcome == Failed(collector(d.request.value).message)
    ensures d.request.Some? && collector(d.request.value).Replied? && !IsOk(collector(d.request.value).status) ==>
      d.outcome == Failed(StatusMessage(collector(d.request.value).status))
  {
    match BuildWire(data, EventTypeOrDefault(eventType), timestamp)
    case Abrupt(m) => Delivery(None, Failed(m))
    case Normal(events) =>
      var req := Request(Config.CollectorUrl(cfg), "POST", "application/json", events);
      Delivery(Some(req), Classify(collector(req)))
  }
}
