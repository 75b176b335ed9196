/** The older handler of api/proxy.js: a method gate, required-field checks,
    the same credential headers, and a relay that forwards any truthy body. */
module LegacyProxy {
  import opened Wrappers
  import opened Http
  import Credentials
  import Base64
  import Utf8
  import ProxyHandler

  /** The cross-origin headers; only Content-Type may be sent. */
  const CorsHeaders: Headers := map[
    "Access-Control-Allow-Origin" := "*",
    "Access-Control-Allow-Methods" := "GET, POST, OPTIONS, PATCH",
    "Access-Control-Allow-Headers" := "Content-Type"]

  const ProxyFailure: string := "Internal Server Error during proxy execution."

  datatype ReplyBody = EmptyBody | MessageBody(message: string) | TextBody(text: string)

  datatype Reply = Reply(status: int, body: ReplyBody)

  /** The response headers set, the upstream calls issued, the reply sent. */
  datatype Handled = Handled(responseHeaders: Headers, calls: seq<Call>, reply: Reply)

  function Respond(status: int, body: ReplyBody): Handled {
    Handled(CorsHeaders, [], Reply(status, body))
  }

  /** The headers object: content type first, then the credential added in
      place; the version header is written out literally here. */
  method BuildHeaders(tokenKey: Option<string>, tokenValue: string) returns (headers: Option<Headers>)
    ensures headers == Credentials.OutboundHeaders(tokenKey, tokenValue)
  {
    var h: Headers := map["Content-Type" := "application/json"];
    if tokenKey == Some("notionToken") {
      h := h["Authorization" := "Bearer " + tokenValue];
      h := h["Notion-Version" := "2022-06-28"];
    } else if tokenKey == Some("togglApiToken") {
      h := h["Authorization" := "Basic " + Base64.Encode(Utf8.Encode(tokenValue + ":api_token"))];
    } else {
      return None;
    }
    return Some(h);
  }

  /** The relayed call: the caller's method, URL and the token kind's
      headers; any truthy `body` goes into the request, whatever the method. */
  function RelayCall(f: RequestFields, headers: Headers): (c: Call)
    requires f.targetUrl.Some?
    ensures c.url == f.targetUrl.value && c.httpMethod == f.httpMethod && c.headers == headers
    ensures c.payload != NoPayload <==> f.body.Some? && Truthy(f.body.value)
    ensures c.payload != NoPayload ==> c.payload == JsonText(f.body.value)
  {
    Call(f.httpMethod, f.targetUrl.value, headers,
         if f.body.Some? && Truthy(f.body.value) then JsonText(f.body.value) else NoPayload)
  }

  /** One invocation. Everything after the method gate sits in one try block,
      so an unreadable or absent body and a failed or refused fetch all give
      500. */
  function Handle(req: Request, relay: Fetched<Json>): (h: Handled)
    ensures h.responseHeaders == CorsHeaders
    ensures |h.calls| <= 1
    ensures req.httpMethod == "POST" && !req.body.Parsed? ==> h == Respond(500, MessageBody(ProxyFailure))
  {
    if req.httpMethod == "OPTIONS" then Respond(200, EmptyBody)
    else if req.httpMethod != "POST" then
      Respond(405, MessageBody("Method Not Allowed. Only POST is accepted for proxy."))
    else match req.body
      case Malformed => Respond(500, MessageBody(ProxyFailure))
      case NoBody => Respond(500, MessageBody(ProxyFailure))
      case Parsed(f) =>
        if !Present(f.targetUrl) || !Present(f.tokenValue) then
          Respond(400, MessageBody("Missing targetUrl or tokenValue in request body."))
        else match Credentials.OutboundHeaders(f.tokenKey, f.tokenValue.value)
          case None => Respond(400, MessageBody("Invalid tokenKey specified."))
          case Some(headers) =>
            var call := RelayCall(f, headers);
            var reply := match Perform(call, relay)
              case Threw(_) => Reply(500, MessageBody(ProxyFailure))
              case Responded(status, text, _) => Reply(status, TextBody(text));
            Handled(CorsHeaders, [call], reply)
  }

  /** OPTIONS gets an empty 200 and every other non-POST, GET included,
      gets 405, before anything else; a POST whose body is absent or
      unreadable gets 500. */
  lemma MethodGate(req: Request, relay: Fetched<Json>)
    ensures req.httpMethod == "OPTIONS" ==> Handle(req, relay) == Respond(200, EmptyBody)
    ensures req.httpMethod != "OPTIONS" && req.httpMethod != "POST" ==>
      Handle(req, relay) == Respond(405, MessageBody("Method Not Allowed. Only POST is accepted for proxy."))
    ensures req.httpMethod == "POST" && !req.body.Parsed? ==>
      Handle(req, relay) == Respond(500, MessageBody(ProxyFailure))
  {
  }

  /** A missing target URL or token value is answered with 400 before any
      header is built or call made; a known token kind leads to exactly one
      call, whose status and text come back unchanged unless fetch rejects or
      refuses it, which gives 500. */
  lemma RequiredFieldsAndPassThrough(f: RequestFields, relay: Fetched<Json>)
    ensures var h := Handle(Request("POST", Parsed(f)), relay);
      && (!Present(f.targetUrl) || !Present(f.tokenValue) ==>
            h == Respond(400, MessageBody("Missing targetUrl or tokenValue in request body.")))
      && (Present(f.targetUrl) && Present(f.tokenValue) ==>
            var headers := Credentials.OutboundHeaders(f.tokenKey, f.tokenValue.value);
            && (headers.None? ==> h == Respond(400, MessageBody("Invalid tokenKey specified.")))
            && (headers.Some? ==>
                  && h.calls == [RelayCall(f, headers.value)]
                  && (relay.Responded? && !FetchRefuses(h.calls[0]) ==>
                        h.reply == Reply(relay.status, TextBody(relay.text)))
                  && (relay.Threw? || FetchRefuses(h.calls[0]) ==> h.reply == Reply(500, MessageBody(ProxyFailure)))))
  {
  }

  /** Both handlers send the same credential headers for the same token: a
      relay request both accept goes out with identical headers, and both
      refuse the same token kinds with the same 400. */
  lemma SameHeadersAsMainHandler(f: RequestFields, relay: Fetched<Json>, up: ProxyHandler.Upstream)
    requires Present(f.targetUrl) && Present(f.tokenValue) && !Present(f.customEndpoint)
    ensures var legacy := Handle(Request("POST", Parsed(f)), relay);
      var main := ProxyHandler.Handle(Request("POST", Parsed(f)), up);
      && |legacy.calls| == |main.calls|
      && (|legacy.calls| == 1 ==> legacy.calls[0].headers == main.calls[0].headers)
      && (|legacy.calls| == 0 <==> legacy.reply == Reply(400, MessageBody("Invalid tokenKey specified.")))
      && (|main.calls| == 0 <==>
            main.reply == Some(ProxyHandler.Reply(400, ProxyHandler.MessageBody("Invalid tokenKey specified."))))
  {
  }

  /** Where the two relays differ: on a GET with a truthy body, this handler
      puts the body into the request, which fetch refuses, so the client gets
      500; the main handler drops the body and passes the service's answer
      through. */
  lemma BodyOnGetDiffers(f: RequestFields, relay: Fetched<Json>, up: ProxyHandler.Upstream)
    requires Present(f.targetUrl) && Present(f.tokenValue) && !Present(f.customEndpoint)
    requires Credentials.OutboundHeaders(f.tokenKey, f.tokenValue.value).Some?
    requires f.httpMethod == Some("GET") && f.body.Some? && Truthy(f.body.value)
    ensures var headers := Credentials.OutboundHeaders(f.tokenKey, f.tokenValue.value).value;
      RelayCall(f, headers).payload == JsonText(f.body.value)
      && ProxyHandler.RelayCall(f, headers).payload == NoPayload
    ensures Handle(Request("POST", Parsed(f)), relay).reply == Reply(500, MessageBody(ProxyFailure))
    ensures ProxyHandler.Handle(Request("POST", Parsed(f)), up).reply == Some(ProxyHandler.RelayReply(up.relay))
  {
    assert AsciiUpper("GET") == "GET";
  }
}
