/** The handler of api/proxy/index.js: the method and token gate, dispatch to
    the three custom endpoints, and the generic relay. */
module ProxyHandler {
  import opened Wrappers
  import opened Http
  import Calendar
  import Credentials
  import Base64
  import Utf8
  import NotionConfig
  import NotionKpi
  import TogglTracking

  /** The cross-origin headers set before any branch is taken. */
  const CorsHeaders: Headers := map[
    "Access-Control-Allow-Origin" := "*",
    "Access-Control-Allow-Methods" := "GET, POST, OPTIONS, PATCH",
    "Access-Control-Allow-Headers" := "Content-Type, Authorization"]

  const RelayFailure: string := "Internal Server Error during proxy execution."

  datatype ReplyBody =
    | EmptyBody                                // res.end()
    | MessageBody(message: string)             // res.json({ message })
    | TextBody(text: string)                   // res.send(text)
    | ConfigBody(config: NotionConfig.DbConfig)
    | KpiBody(kpi: NotionKpi.Kpi)
    | JsonBody(json: Json)

  datatype Reply = Reply(status: int, body: ReplyBody)

  /** What one invocation does: the response headers it sets, the upstream
      calls it hands to fetch in order, and the reply it sends (None when it throws
      before sending one). */
  datatype Handled = Handled(responseHeaders: Headers, calls: seq<Call>, reply: Option<Reply>)

  /** The outcomes the upstream calls would have, and the clock. */
  datatype Upstream = Upstream(
    today: Calendar.Date,
    now: string,
    relay: Fetched<Json>,
    schema: Fetched<NotionConfig.Database>,
    weekQuery: Fetched<seq<NotionKpi.Task>>,
    monthQuery: Fetched<seq<NotionKpi.Task>>,
    currentEntry: Fetched<TogglTracking.CurrentEntry>,
    stopEntry: Fetched<Json>,
    startEntry: Fetched<Json>)

  function Respond(status: int, body: ReplyBody): Handled {
    Handled(CorsHeaders, [], Some(Reply(status, body)))
  }

  /** The headers object as built in place: the content type first, then
      the branch on the token kind adds the credential. */
  method BuildHeaders(tokenKey: Option<string>, tokenValue: string) returns (headers: Option<Headers>)
    ensures headers == Credentials.OutboundHeaders(tokenKey, tokenValue)
  {
    var h: Headers := map["Content-Type" := "application/json"];
    if tokenKey == Some("notionToken") {
      h := h["Authorization" := "Bearer " + tokenValue];
      h := h["Notion-Version" := Credentials.NotionVersion];
    } else if tokenKey == Some("togglApiToken") {
      var authBase64 := Base64.Encode(Utf8.Encode(tokenValue + ":api_token"));
      h := h["Authorization" := "Basic " + authBase64];
    } else {
      return None;
    }
    return Some(h);
  }

  /** The relayed call: the caller's method, URL and the token kind's
      headers; a body only when the method is neither GET nor DELETE and
      `body.body` is truthy, and then that value. */
  function RelayCall(f: RequestFields, headers: Headers): (c: Call)
    requires f.targetUrl.Some?
    ensures c.url == f.targetUrl.value && c.httpMethod == f.httpMethod && c.headers == headers
    ensures c.payload != NoPayload <==>
      f.httpMethod != Some("GET") && f.httpMethod != Some("DELETE") && f.body.Some? && Truthy(f.body.value)
    ensures c.payload != NoPayload ==> c.payload == JsonText(f.body.value)
  {
    var forwardBody := f.httpMethod != Some("GET") && f.httpMethod != Some("DELETE")
                       && f.body.Some? && Truthy(f.body.value);
    Call(f.httpMethod, f.targetUrl.value, headers, if forwardBody then JsonText(f.body.value) else NoPayload)
  }

  /** The relay's reply: the upstream status and text unchanged, or 500. */
  function RelayReply(relay: Fetched<Json>): Reply {
    match relay
    case Threw(_) => Reply(500, MessageBody(RelayFailure))
    case Responded(status, text, _) => Reply(status, TextBody(text))
  }

  /** A custom endpoint: one of the three helpers, whose value is sent with
      200 and whose error message with 500 behind the endpoint's prefix; any
      other name is refused with 400 before any call. */
  function CustomEndpoint(f: RequestFields, token: string, up: Upstream): (h: Handled)
    requires Present(f.customEndpoint)
    ensures h.responseHeaders == CorsHeaders && h.reply.Some?
    ensures h.calls == [] <==> f.customEndpoint.value !in {"getConfig", "getKpi", "startTogglTracking"}
    ensures h.reply.value.status == 400 <==> h.calls == []
    ensures h.reply.value.status in {200, 400, 500}
  {
    var endpoint := f.customEndpoint.value;
    if endpoint == "getConfig" then
      var run := NotionConfig.GetNotionDbConfig(f.dbId, token, up.schema);
      Handled(CorsHeaders, run.calls, Some(
        match run.result
        case Ok(config) => Reply(200, ConfigBody(config))
        case Err(message) => Reply(500, MessageBody("Config Error: " + message))))
    else if endpoint == "getKpi" then
      var run := NotionKpi.GetNotionKpi(f.dataSourceId, token, up.today, up.weekQuery, up.monthQuery);
      Handled(CorsHeaders, run.calls, Some(
        match run.result
        case Ok(kpi) => Reply(200, KpiBody(kpi))
        case Err(message) => Reply(500, MessageBody("KPI Error: " + message))))
    else if endpoint == "startTogglTracking" then
      var run := TogglTracking.StartTogglTracking(token, f.workspaceId, f.description, up.now,
                                                  up.currentEntry, up.stopEntry, up.startEntry);
      Handled(CorsHeaders, run.calls, Some(
        match run.result
        case Ok(entry) => Reply(200, JsonBody(entry))
        case Err(message) => Reply(500, MessageBody("Toggl Start Error: " + message))))
    else Respond(400, MessageBody("Invalid custom endpoint."))
  }

  /** One invocation of the handler, branch for branch. */
  function Handle(req: Request, up: Upstream): (h: Handled)
    ensures h.responseHeaders == CorsHeaders
    ensures h.reply.None? <==> req.httpMethod == "POST" && req.body.NoBody?
    ensures req.httpMethod == "POST" && req.body.Malformed? ==> h == Respond(400, MessageBody("Invalid JSON body."))
  {
    if req.httpMethod == "OPTIONS" then Respond(200, EmptyBody)
    else if req.httpMethod == "GET" then Respond(404, MessageBody("Unsupported GET request."))
    else if req.httpMethod != "POST" then Respond(405, MessageBody("Method Not Allowed."))
    else match req.body
      case Malformed => Respond(400, MessageBody("Invalid JSON body."))
      // Destructuring an absent body throws outside any try: no reply.
      case NoBody => Handled(CorsHeaders, [], None)
      case Parsed(f) =>
        if !Present(f.tokenValue) then Respond(401, MessageBody("Token value missing in request body."))
        else if Present(f.customEndpoint) then CustomEndpoint(f, f.tokenValue.value, up)
        else if !Present(f.targetUrl) then Respond(400, MessageBody("Missing targetUrl for standard proxy."))
        else match Credentials.OutboundHeaders(f.tokenKey, f.tokenValue.value)
          case None => Respond(400, MessageBody("Invalid tokenKey specified."))
          case Some(headers) =>
            var call := RelayCall(f, headers);
            Handled(CorsHeaders, [call], Some(RelayReply(Perform(call, up.relay))))
  }

  /** The gate, in order: OPTIONS, GET, any other non-POST, an unreadable
      body and a POST whose token value is falsy are answered before any
      upstream call. */
  lemma MethodAndTokenGate(req: Request, up: Upstream)
    ensures req.httpMethod == "OPTIONS" ==> Handle(req, up) == Respond(200, EmptyBody)
    ensures req.httpMethod == "GET" ==> Handle(req, up) == Respond(404, MessageBody("Unsupported GET request."))
    ensures req.httpMethod !in {"OPTIONS", "GET", "POST"} ==>
      Handle(req, up) == Respond(405, MessageBody("Method Not Allowed."))
    ensures req.httpMethod == "POST" && req.body.Malformed? ==>
      Handle(req, up) == Respond(400, MessageBody("Invalid JSON body."))
    ensures req.httpMethod == "POST" && req.body.Parsed? && !Present(req.body.fields.tokenValue) ==>
      Handle(req, up) == Respond(401, MessageBody("Token value missing in request body."))
  {
  }

  /** Custom endpoints: an unknown name gets 400 with no call; a known one
      replies 200 with the helper's value or 500 with the helper's message
      behind its endpoint's prefix. */
  lemma CustomEndpointDispatch(f: RequestFields, up: Upstream)
    requires Present(f.tokenValue) && Present(f.customEndpoint)
    ensures var h := Handle(Request("POST", Parsed(f)), up);
      var e, token := f.customEndpoint.value, f.tokenValue.value;
      && (e !in {"getConfig", "getKpi", "startTogglTracking"} ==>
            h == Respond(400, MessageBody("Invalid custom endpoint.")))
      && (e == "getConfig" ==>
            var run := NotionConfig.GetNotionDbConfig(f.dbId, token, up.schema);
            h.calls == run.calls
            && (run.result.Ok? ==> h.reply == Some(Reply(200, ConfigBody(run.result.value))))
            && (run.result.Err? ==> h.reply == Some(Reply(500, MessageBody("Config Error: " + run.result.error)))))
      && (e == "getKpi" ==>
            var run := NotionKpi.GetNotionKpi(f.dataSourceId, token, up.today, up.weekQuery, up.monthQuery);
            h.calls == run.calls
            && (run.result.Ok? ==> h.reply == Some(Reply(200, KpiBody(run.result.value))))
            && (run.result.Err? ==> h.reply == Some(Reply(500, MessageBody("KPI Error: " + run.result.error)))))
      && (e == "startTogglTracking" ==>
            var run := TogglTracking.StartTogglTracking(token, f.workspaceId, f.description, up.now,
                                                        up.currentEntry, up.stopEntry, up.startEntry);
            h.calls == run.calls
            && (run.result.Ok? ==> h.reply == Some(Reply(200, JsonBody(run.result.value))))
            && (run.result.Err? ==> h.reply == Some(Reply(500, MessageBody("Toggl Start Error: " + run.result.error)))))
  {
  }

  /** The relay: a missing URL or an unknown token kind is answered with 400
      and no call; otherwise exactly one call is handed to fetch, with the
      headers of the token kind, and the service's status and text come back
      unchanged unless fetch rejects, or refuses the call, which gives 500. */
  lemma RelayBehaviour(f: RequestFields, up: Upstream)
    requires Present(f.tokenValue) && !Present(f.customEndpoint)
    ensures var h := Handle(Request("POST", Parsed(f)), up);
      var headers := Credentials.OutboundHeaders(f.tokenKey, f.tokenValue.value);
      && (!Present(f.targetUrl) ==> h == Respond(400, MessageBody("Missing targetUrl for standard proxy.")))
      && (Present(f.targetUrl) && headers.None? ==> h == Respond(400, MessageBody("Invalid tokenKey specified.")))
      && (Present(f.targetUrl) && headers.Some? ==>
            && h.calls == [RelayCall(f, headers.value)]
            && (up.relay.Responded? && !FetchRefuses(h.calls[0]) ==>
                  h.reply == Some(Reply(up.relay.status, TextBody(up.relay.text))))
            && (up.relay.Threw? || FetchRefuses(h.calls[0]) ==> h.reply == Some(Reply(500, MessageBody(RelayFailure)))))
  {
  }

  /** A truthy `body.body` goes into the request even when the method is
      missing, HEAD or a GET not spelt in upper case; fetch then refuses the
      request and the client gets 500 whatever the service would answer. The
      method spelt exactly "GET" never carries a body, so it is never
      refused. */
  lemma RelayBodyRefusal(f: RequestFields, up: Upstream)
    requires Present(f.tokenValue) && !Present(f.customEndpoint) && Present(f.targetUrl)
    requires Credentials.OutboundHeaders(f.tokenKey, f.tokenValue.value).Some?
    requires f.body.Some? && Truthy(f.body.value)
    ensures var h := Handle(Request("POST", Parsed(f)), up);
      f.httpMethod in {None, Some("HEAD"), Some("get"), Some("head")} ==>
        h.reply == Some(Reply(500, MessageBody(RelayFailure)))
    ensures var h := Handle(Request("POST", Parsed(f)), up);
      f.httpMethod in {Some("GET"), Some("POST"), Some("PATCH")} ==> h.reply == Some(RelayReply(up.relay))
  {
    var headers := Credentials.OutboundHeaders(f.tokenKey, f.tokenValue.value).value;
    var c := RelayCall(f, headers);
    if f.httpMethod == Some("get") {
      assert AsciiUpper("get") == "GET";
      assert FetchRefuses(c);
    } else if f.httpMethod == Some("head") {
      assert AsciiUpper("head") == "HEAD";
      assert FetchRefuses(c);
    } else if f.httpMethod == Some("HEAD") {
      assert AsciiUpper("HEAD") == "HEAD";
      assert FetchRefuses(c);
    } else if f.httpMethod == Some("POST") {
      assert AsciiUpper("POST") == "POST";
    } else if f.httpMethod == Some("PATCH") {
      assert AsciiUpper("PATCH") == "PATCH";
    }
  }

  /** The target URL plays no part in choosing the credential: two relay
      requests that differ only in it send the same headers. */
  lemma SchemeIgnoresTargetUrl(f: RequestFields, url: string, up: Upstream)
    requires Present(f.tokenValue) && !Present(f.customEndpoint) && Present(f.targetUrl) && url != ""
    ensures var h1 := Handle(Request("POST", Parsed(f)), up);
      var h2 := Handle(Request("POST", Parsed(f.(targetUrl := Some(url)))), up);
      |h1.calls| == |h2.calls| && (|h1.calls| == 1 ==> h1.calls[0].headers == h2.calls[0].headers)
  {
  }
}
