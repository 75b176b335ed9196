# Notion/Toggl relay — a Dafny model of its request core

The system is a small HTTP relay running as a serverless function. A browser
client sends it one JSON request. The relay either forwards the request to the
Notion API or the Toggl Track API with the right credential header attached,
or it runs one of three built-in workflows against those services:

- `getConfig` lists the category and department options of a Notion database.
- `getKpi` totals the minutes logged this week and this month, with a
  per-category breakdown of the week.
- `startTogglTracking` stops the running Toggl timer and starts a new one.

This project models the two handlers (`api/proxy/index.js` and the older
`api/proxy.js`) as total functions. Each takes an abstract inbound request
and the abstract outcomes of the upstream calls. Each returns the response
headers set, the upstream calls issued in order, and the reply sent. The
parts the code computes step by step are imperative Dafny, proved against
specification functions:

- the `aggregateTime` loop;
- the `Date` that `setDate` changes in place;
- the header object filled in per token kind.

Modules, leaf first:

- `Decimal` renders statuses and ids as decimal text, and parses them back.
- `Base64` is the encoding of section 4 of RFC 4648, with a decoder.
- `Utf8` is UTF-8 (RFC 3629), which `Buffer.from` applies to a string, with
  a decoder.
- `Calendar` holds proleptic Gregorian dates, day numbers, `getDay`,
  `setDate` (`LocalDate`) and the two KPI window starts.
- `Http` holds the request fields, JSON values, upstream calls and their
  outcomes.
- `Credentials` is the header builder shared by both handlers.
- `NotionConfig`, `NotionKpi` and `TogglTracking` are the three workflows.
- `ProxyHandler` models `api/proxy/index.js`; `LegacyProxy` models
  `api/proxy.js`.

Points where the behaviour may surprise a reader, all modelled as the code
does them:

- Option names are passed through as listed, duplicates included.
- Every row's minutes are added, zero and negative ones included; a row
  without a time adds 0 and still creates its category's key.
- The month window starts on day 1 of the *week start's* month, because
  `setDate` has already moved `dateToday` back to the Sunday when line 193
  reads the year and month. The comment at `api/proxy/index.js:206` calls
  this filter "this month's tasks", yet early in a month the window reaches
  into the previous one (`Calendar.MonthStartFollowsWeekStart`).
- `Content-Type: application/json` is sent on every relayed call, with or
  without a body.
- The relay returns the upstream text as it is, not parsed.
- A POST to `api/proxy/index.js` without a body throws outside any `try`,
  so no reply is sent.
- Fetch refuses a GET or HEAD request that carries a body (the method is
  compared in upper case, and a missing one means GET). The main relay
  drops the body only for the exact spellings "GET" and "DELETE", and the
  older relay never does. Such a request therefore gets 500 whatever the
  service would have answered (`Http.Perform`).

## Model

| member | source | states |
|---|---|---|
| Decimal.NatToString | api/proxy/index.js:163 | a status renders as digits only, with no leading zero except for 0 |
| Decimal.IntToString | api/proxy/index.js:279 | an integer renders as digits, led by '-' exactly when it is negative |
| Decimal.IntToStringRoundTrip | api/proxy/index.js:279 | an entry id rendered into the stop URL reads back as the same integer |
| Decimal.IntToStringInjective | api/proxy/index.js:279 | different ids give different stop URLs |
| Base64.Encode | api/proxy/index.js:116 | base 64 output has 4 characters per started group of 3 octets |
| Base64.EncodeWellFormed | api/proxy/index.js:116 | the output uses only the RFC 4648 alphabet, with '=' only in the last two places |
| Base64.DecodeEncode | api/proxy/index.js:116 | decoding the base 64 text gives back the encoded octets |
| Utf8.Encode | api/proxy/index.js:116 | `Buffer.from` gives 1 to 4 octets per character |
| Utf8.DecodeEncode | api/proxy/index.js:116 | decoding the UTF-8 octets gives back the string |
| Utf8.EncodeAscii | api/proxy/index.js:116 | ASCII text is encoded one octet per character, equal to its code |
| Calendar.Weekday | api/proxy/index.js:192 | `getDay()` is in 0..6, with Sunday as 0 |
| Calendar.DayNumberNext | api/proxy/index.js:192 | day numbers count days: the next date has the next number |
| Calendar.DayNumberInjective | api/proxy/index.js:192 | different dates have different day numbers |
| Calendar.WithDayOfMonth | api/proxy/index.js:192 | `setDate(k)` moves to day k of the month, where k <= 0 reaches into the previous month |
| Calendar.WeekStart | api/proxy/index.js:192 | the week start is today minus its weekday, and it is a Sunday |
| Calendar.WeekStartIsMostRecentSunday | api/proxy/index.js:192 | the week start is a Sunday at most 6 days before today, with no Sunday after it up to today |
| Calendar.WeekStartIdempotent | api/proxy/index.js:192 | taking the week start of a week start changes nothing |
| Calendar.MonthStart | api/proxy/index.js:193 | day 1 of a date's month lies `day - 1` days before the date |
| Calendar.MonthStartBeforeWeekStart | api/proxy/index.js:193 | the month start is day 1 of the week start's month, never after the week start |
| Calendar.MonthStartIsTodaysMonth | api/proxy/index.js:192-193 | if today's day of month exceeds its weekday, the month start is day 1 of today's month |
| Calendar.MonthStartFollowsWeekStart | api/proxy/index.js:192-193 | on Saturday 2024-03-02 the week starts 2024-02-25, so the month window starts 2024-02-01, not on day 1 of today's month |
| Calendar.TodaysMonthStart | api/proxy/index.js:206 | day 1 of today's own month is never after today and less than a month before it |
| Calendar.LocalDate.constructor | api/proxy/index.js:191 | a new date object holds the given date |
| Calendar.LocalDate.GetDay | api/proxy/index.js:192 | `getDay()` of the object lies in 0..6 |
| Calendar.LocalDate.SetDate | api/proxy/index.js:192 | `setDate` changes the object in place to the k-th day of its month |
| Calendar.WindowStarts | api/proxy/index.js:191-193 | the in-place computation gives the Sunday week start and day 1 of the week start's month |
| Http.Perform | api/proxy/index.js:133 | a call without a body, or with method POST, PATCH, PUT or DELETE, gets the service's answer; a call with a body and a missing method, GET, get, HEAD or head is refused before anything is sent |
| Credentials.OutboundHeaders | api/proxy/index.js:110-121 | a header set exists iff the token kind is notionToken or togglApiToken; it always holds the JSON Content-Type and an Authorization |
| Credentials.NotionHeaders | api/proxy/index.js:112-114 | notionToken gives exactly Content-Type, `Bearer <token>` and `Notion-Version: 2022-06-28` |
| Credentials.TogglHeaders | api/proxy/index.js:115-117 | togglApiToken gives exactly Content-Type and the Basic credential |
| Credentials.BasicValue | api/proxy/index.js:116-117 | the Basic credential is "Basic " followed by well-formed base 64, four characters per started group of three octets |
| Credentials.BasicValueDecodes | api/proxy.js:37 | the Basic credential decodes, base 64 then UTF-8, back to `<token>:api_token` |
| Credentials.BasicValueInjective | api/proxy.js:37 | different tokens give different Basic credentials |
| NotionConfig.Names | api/proxy/index.js:168 | `map(opt => opt.name)` keeps one name per option, in order |
| NotionConfig.OptionNames | api/proxy/index.js:168-169 | a missing `select`/`multi_select` object or `options` list gives []; otherwise one name per option, in order |
| NotionConfig.ExtractConfig | api/proxy/index.js:168-181 | dataSourceId echoes dbId; a missing property gives [] |
| NotionConfig.SchemaCall | api/proxy/index.js:152-159 | the schema request is a GET of the database URL without a body, carrying the relay's notionToken headers minus Content-Type |
| NotionConfig.ConfigListsOptionNames | api/proxy/index.js:168-169 | categories are the `select` option names of カテゴリ and departments the `multi_select` option names of 部門, in order |
| NotionConfig.MissingPropertiesGiveEmptyLists | api/proxy/index.js:168-169 | a schema without either property gives two empty lists and no error |
| NotionConfig.CategoryNeedsSelect | api/proxy/index.js:168 | a category property without a `select` object contributes no names |
| NotionConfig.DuplicateOptionsKept | api/proxy/index.js:168 | two options with the same name both appear |
| NotionConfig.GetNotionDbConfig | api/proxy/index.js:151-182 | one GET of the schema; success iff the response is ok and parses; a non-ok response throws with its status and text |
| NotionKpi.Bucket | api/proxy/index.js:239 | every row falls into a non-empty bucket: its own category name when that is non-empty, その他 when it is missing or empty |
| NotionKpi.SumValuesRemove | api/proxy/index.js:244 | the sum of a category map's values does not depend on the order of its keys |
| NotionKpi.SumValuesAddTo | api/proxy/index.js:244 | adding minutes to one category raises the sum of values by exactly that amount |
| NotionKpi.CategoryMinutesByBucket | api/proxy/index.js:237-245 | the map has a key exactly for each bucket that occurs, holding that bucket's minutes |
| NotionKpi.CategorySumIsTotal | api/proxy/index.js:233-248 | the category values add up to the total |
| NotionKpi.AggregateTime | api/proxy/index.js:233-248 | the loop's total and map are the fold over the rows; the map sums to the total; each key holds its bucket's minutes; no rows give 0 and an empty map |
| NotionKpi.FetchTasks | api/proxy/index.js:213-225 | a query yields rows iff it is ok and parses; a non-ok status throws `KPI Query failed: <status>` |
| NotionKpi.GetNotionKpi | api/proxy/index.js:187-258 | both queries are issued; success iff both succeed; week total and breakdown come from the week rows and month total from the month rows |
| NotionKpi.FiltersAreOnOrAfter | api/proxy/index.js:195-210 | both filters are `完了日 on_or_after`, for the week start and for day 1 of its month; `is_not_empty` is overwritten |
| NotionKpi.WeekFilter | api/proxy/index.js:200-204 | the week filter starts on a Sunday at most 6 days before today |
| NotionKpi.MonthFilter | api/proxy/index.js:206-210 | the month filter starts on day 1 of the week filter's month, never after the week filter's start |
| NotionKpi.QueryCall | api/proxy/index.js:214-222 | a query is a POST of the database's `/query` URL carrying the filter, which fetch never refuses |
| NotionKpi.QueryHeadersAreNotionHeaders | api/proxy/index.js:216-220 | the query headers equal the relay's notionToken headers |
| NotionKpi.NonPositiveMinutesCounted | api/proxy/index.js:238-244 | a row's minutes are its time or 0 when missing: a negative time lowers the total, and a zero or missing time still creates its category key |
| NotionKpi.TotalMinutesAppend | api/proxy/index.js:237-242 | the total of rows split in two is the sum of the two totals: each row adds its own minutes |
| NotionKpi.OneRowExample | api/proxy/index.js:250-257 | one row (30, dev) in both windows gives totals 30 and 30 and {dev: 30} |
| TogglTracking.CurrentCall | api/proxy/index.js:272-274 | the lookup is a bodiless GET of the current-entry URL with the Basic headers |
| TogglTracking.StopCall | api/proxy/index.js:279-280 | the stop is a bodiless PATCH under the time-entries URL with the Basic headers |
| TogglTracking.StopCallIdentifiesEntry | api/proxy/index.js:279 | different entry ids give different stop URLs |
| TogglTracking.StartCall | api/proxy/index.js:288-300 | the start is a POST of the new entry: description, `parseInt` of the workspace id, the start time and "Notion-Toggl-Timer" |
| TogglTracking.StopStep | api/proxy/index.js:273-285 | the lookup is always issued; the PATCH for that id follows iff the entry was read and has a truthy id |
| TogglTracking.StartResult | api/proxy/index.js:296-307 | the start succeeds iff it is ok and parses; a non-ok status throws with its status and text |
| TogglTracking.StartTogglTracking | api/proxy/index.js:264-308 | the stop step's calls come first and the start POST always comes last; the result is the start step's |
| TogglTracking.StopIssuedOnlyForRunningEntry | api/proxy/index.js:277-281 | a PATCH is among the calls iff the current entry was read and has a truthy id |
| TogglTracking.StopFailureIgnored | api/proxy/index.js:282-285 | a failed stop step leaves the result as it would be with nothing running |
| TogglTracking.StartFailureFatal | api/proxy/index.js:302-305 | a non-ok start fails the workflow with its status and text, whatever the stop step did |
| TogglTracking.TogglHeadersAreRelayHeaders | api/proxy/index.js:265-269 | the workflow's headers equal the relay's togglApiToken headers |
| ProxyHandler.BuildHeaders | api/proxy/index.js:110-121 | the in-place header object equals the credential headers, or None for an unknown token kind |
| ProxyHandler.Handle | api/proxy/index.js:11-142 | the CORS headers are set on every path; no reply is sent only for a POST without a body; an unreadable body gets 400 "Invalid JSON body." |
| ProxyHandler.MethodAndTokenGate | api/proxy/index.js:19-55 | OPTIONS gets 200 empty, GET 404, other non-POST 405, an unreadable body 400, a falsy token 401, each with no call |
| ProxyHandler.CustomEndpointDispatch | api/proxy/index.js:60-96 | only the three names are routed; an unknown one gets 400; success gives 200, a throw gives 500 with the endpoint's prefix |
| ProxyHandler.RelayBehaviour | api/proxy/index.js:102-141 | a missing URL or unknown token kind gets 400 with no call; otherwise exactly one call with the kind's headers; its status and text pass through, and a rejected or refused fetch gives 500 |
| ProxyHandler.RelayCall | api/proxy/index.js:124-131 | the request handed to fetch has the caller's URL, method and the kind's headers; it carries a body iff the method is neither "GET" nor "DELETE" and `body.body` is truthy, and then that value |
| ProxyHandler.RelayBodyRefusal | api/proxy/index.js:129-141 | with a truthy body, a missing method, HEAD, or a lower-case get or head is refused by fetch and gets 500; "GET", POST and PATCH get the service's answer |
| ProxyHandler.CustomEndpoint | api/proxy/index.js:60-96 | every custom endpoint is answered; no call is made iff the name is not one of the three, and exactly then the status is 400; otherwise it is 200 or 500 |
| ProxyHandler.SchemeIgnoresTargetUrl | api/proxy/index.js:107-121 | the target URL does not affect the headers; isNotion and isToggl are unused |
| LegacyProxy.BuildHeaders | api/proxy.js:30-41 | the in-place header object equals the credential headers, or None for an unknown token kind |
| LegacyProxy.Handle | api/proxy.js:4-58 | the CORS headers are set on every path; at most one upstream call is made; a POST whose body is absent or unreadable gets 500 |
| LegacyProxy.MethodGate | api/proxy.js:11-22 | OPTIONS gets 200 empty, every other non-POST (GET included) gets 405, and a POST whose body is absent or unreadable gets 500 |
| LegacyProxy.RequiredFieldsAndPassThrough | api/proxy.js:21-57 | a missing targetUrl or tokenValue gets 400 with no call; an unknown token kind gets 400; otherwise one call, whose status and text pass through, and a rejected or refused fetch gives 500 |
| LegacyProxy.RelayCall | api/proxy.js:44-48 | the request handed to fetch has the caller's URL, method and the kind's headers; it carries a body iff `body` is truthy, whatever the method |
| LegacyProxy.SameHeadersAsMainHandler | api/proxy.js:30-41 | for the same relay request both handlers send identical headers and reject the same token kinds |
| LegacyProxy.BodyOnGetDiffers | api/proxy.js:44-56 | on a GET with a truthy body, this handler puts the body into the request, fetch refuses it and the client gets 500; the main handler drops the body and passes the service's answer through |

## Findings

| source | as written | input that shows it | evidently intended | confidence | as-written member | corrected member |
|---|---|---|---|---|---|---|
| api/proxy/index.js:191-210 | the month filter starts on day 1 of the week start's month, because line 193 reads the date after `setDate` has moved it | today = Saturday 2024-03-02: the month filter starts on 2024-02-01 | the comment at line 206 says "this month's tasks": day 1 of today's month, 2024-03-01 | not executed; moderate, since the comment may be loose | Calendar.MonthStartFollowsWeekStart | Calendar.TodaysMonthStart |

The KPI model keeps the code's behaviour (`NotionKpi.MonthFilter`).

## Left out

- Transport: `fetch`, `res.status/json/send/end` and `setHeader` are not performed. Each upstream call is a `Call` value, and its outcome is an input (`Fetched`): a rejection with its message, or a status with the body as text and as parsed JSON.
- A failure of `response.text()` after a response has arrived is not modelled. The text is always part of the outcome.
- JSON serialisation and parsing are left out. Bodies are JSON values, and a parse failure is an input with its message.
- Numbers in JSON are integers. Floating point and NaN are not modelled.
- `Math.round` is not modelled. `作業時間` arrives already rounded to an integer.
- `parseInt(workspaceId)` is kept symbolic (`ParseIntOf`).
- The start timestamp `new Date().toISOString()` is an input.
- Time zones, time of day and `toISOString()` (UTC, unlike the local `getDay`) are not modelled. Today is a local calendar date, and each filter carries the date itself rather than its `YYYY-MM-DD` text.
- Calendar.WindowStarts: `new Date(y, m, 1)` reads years 0 to 99 as 1900 to 1999. The model keeps the year as it is; the clock never gives such a year.
- Fetch's refusal is an assumption about fetch, not code of this system. Fetch rejects a GET or HEAD request that carries a body; the method is compared in upper case and defaults to GET. Every other outcome is an input (`Http.Perform`).
- Fetch's other refusals are not modelled, such as a method name that is not a valid token (the global fetch of `api/proxy.js` refuses an empty one). A refused call still appears among the calls handed to fetch.
- Calendar.WithDayOfMonth: requires -27 <= k <= the length of the month, and so does Calendar.LocalDate.SetDate. JavaScript's `setDate` accepts any integer and rolls past either end of the month. The only call passes the day minus the weekday, which lies between -5 and the day itself.
- NotionKpi.GetNotionKpi: when both queries fail, the model reports the week query's message. `Promise.all` reports whichever query rejects first.
- Running the two queries concurrently is not modelled. They are two independent outcomes.
- Request fields are strings or missing. Fields holding numbers, booleans or objects, and how JavaScript would turn those into text, are not modelled. The same goes for a non-string `targetUrl` reaching `includes`.
- Strings hold Unicode scalar values. JavaScript strings with lone surrogates are not modelled.
- Upstream JSON without the expected shape is not modelled: a schema without `properties`, a row without `properties`, a query result without `results`, or an option without `name`. In JavaScript these raise a TypeError, or put `undefined` into a list.
- The category map is a plain dictionary. Keys that collide with the object prototype (such as `__proto__`) are not modelled.
- Decimal.NatToString: renders every integer in plain digits. JavaScript switches to exponent notation from 1e21 upward, far beyond any HTTP status or entry id.
- Logging with `console.log/warn/error` is not modelled.
