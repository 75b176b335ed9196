/** The values the handlers exchange with their caller and with the upstream
    services: inbound requests, JSON values, header maps, planned upstream
    calls and their abstract outcomes. */
module Http {
  import opened Wrappers
  import Calendar

  /** A parsed JSON value; numbers are limited to integers. */
  datatype Json =
    | JNull
    | JBool(b: bool)
    | JNumber(n: int)
    | JString(s: string)
    | JArray(items: seq<Json>)
    | JObject(members: seq<(string, Json)>)

  /** JavaScript truthiness of a JSON value. */
  predicate Truthy(j: Json) {
    match j
    case JNull => false
    case JBool(b) => b
    case JNumber(n) => n != 0
    case JString(s) => s != ""
    case _ => true
  }

  /** Truthiness of a request field that is a string or is missing. */
  predicate Present(f: Option<string>) {
    f.Some? && f.value != ""
  }

  /** `${f}` for a field that is a string or is missing. */
  function Interpolate(f: Option<string>): string {
    if f.Some? then f.value else "undefined"
  }

  /** The fields the handlers read from the parsed inbound JSON body. */
  datatype RequestFields = RequestFields(
    customEndpoint: Option<string>,
    targetUrl: Option<string>,
    httpMethod: Option<string>,
    tokenKey: Option<string>,
    tokenValue: Option<string>,
    body: Option<Json>,
    dbId: Option<string>,
    dataSourceId: Option<string>,
    workspaceId: Option<string>,
    description: Option<string>)

  /** `req.body`: absent (or JSON null), not parseable (the platform's getter
      throws), or a parsed object. */
  datatype InboundBody = NoBody | Malformed | Parsed(fields: RequestFields)

  datatype Request = Request(httpMethod: string, body: InboundBody)

  type Headers = map<string, string>

  /** The outcome of one upstream call: the fetch rejected with a message, or
      a response whose body is given as text and as the result of parsing it
      as JSON (the parse error's message when it is not JSON). */
  datatype Fetched<T> =
    | Threw(message: string)
    | Responded(status: int, text: string, json: Result<T, string>)

  /** `response.ok`. */
  predicate IsOk(status: int) {
    200 <= status <= 299
  }

  datatype DateCondition = IsNotEmpty | OnOrAfter(date: Calendar.Date)

  /** A database query filter on one date property. */
  datatype QueryFilter = QueryFilter(property: string, date: DateCondition)

  /** `parseInt(raw)`, kept symbolic. */
  datatype ParsedInt = ParseIntOf(raw: Option<string>)

  /** The body of an upstream call, before JSON serialisation. */
  datatype Payload =
    | NoPayload
    | JsonText(value: Json)
    | FilterQuery(filter: QueryFilter)
    | NewTimeEntry(description: Option<string>, workspaceId: ParsedInt, start: string, createdWith: string)

  /** One upstream call; a missing `httpMethod` is fetch's default (GET). */
  datatype Call = Call(httpMethod: Option<string>, url: string, headers: Headers, payload: Payload)

  function UpperChar(c: char): char {
    if 'a' <= c <= 'z' then (c as int - 32) as char else c
  }

  /** ASCII upper-casing, as fetch normalises a method name. */
  function AsciiUpper(s: string): (u: string)
    ensures |u| == |s|
    ensures forall i :: 0 <= i < |s| ==> u[i] == UpperChar(s[i])
  {
    if s == [] then [] else [UpperChar(s[0])] + AsciiUpper(s[1..])
  }

  /** The method fetch sends: GET when none (or an empty one) is given,
      otherwise the name in upper case. */
  function FetchMethod(m: Option<string>): string {
    if m.None? || m.value == "" then "GET" else AsciiUpper(m.value)
  }

  /** Fetch refuses to build a GET or HEAD request that carries a body: it
      rejects with a TypeError before anything is sent. */
  predicate FetchRefuses(c: Call) {
    c.payload != NoPayload && FetchMethod(c.httpMethod) in {"GET", "HEAD"}
  }

  const RefusedBodyMessage: string := "Request with GET/HEAD method cannot have body"

  /** What handing `c` to fetch yields, given what the service would answer
      to it: the refusal when fetch will not build the request. */
  function Perform<T>(c: Call, outcome: Fetched<T>): (r: Fetched<T>)
    ensures FetchRefuses(c) ==> r == Threw(RefusedBodyMessage)
    ensures !FetchRefuses(c) ==> r == outcome
    ensures c.payload == NoPayload ==> r == outcome
    ensures c.httpMethod in {Some("POST"), Some("PATCH"), Some("PUT"), Some("DELETE")} ==> r == outcome
    ensures c.payload != NoPayload && c.httpMethod in {None, Some("GET"), Some("get"), Some("HEAD"), Some("head")} ==>
      r == Threw(RefusedBodyMessage)
  {
    assert AsciiUpper("POST") == "POST" && AsciiUpper("PATCH") == "PATCH";
    assert AsciiUpper("PUT") == "PUT" && AsciiUpper("DELETE") == "DELETE";
    assert AsciiUpper("GET") == "GET" && AsciiUpper("get") == "GET";
    assert AsciiUpper("HEAD") == "HEAD" && AsciiUpper("head") == "HEAD";
    if FetchRefuses(c) then Threw(RefusedBodyMessage) else outcome
  }

  /** What a helper does: the calls it issues, in order, and then the value
      it returns or the message of the error it throws. */
  datatype Run<T> = Run(calls: seq<Call>, result: Result<T, string>)
}
