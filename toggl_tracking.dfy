/** `startTogglTracking`: a best-effort stop of the running time entry,
    whose failures are swallowed, then a start call whose failure is not. */
module TogglTracking {
  import opened Wrappers
  import opened Http
  import Credentials
  import Decimal

  const CurrentEntryUrl: string := "https://api.track.toggl.com/api/v9/time_entries/current"
  const TimeEntriesUrl: string := "https://api.track.toggl.com/api/v9/time_entries"
  const CreatedWith: string := "Notion-Toggl-Timer"

  /** The parsed body of the current-entry request: JSON null, or an entry
      whose `id` may be missing. */
  datatype CurrentEntry = NoEntry | Entry(id: Option<int>)

  /** `entryData && entryData.id`: an entry with a non-zero id. */
  predicate HasRunningId(e: CurrentEntry) {
    e.Entry? && e.id.Some? && e.id.value != 0
  }

  function TogglHeaders(token: string): Headers {
    map["Authorization" := Credentials.BasicValue(token),
        "Content-Type" := Credentials.JsonContentType]
  }

  /** The lookup of the running entry: a GET, without a body. */
  function CurrentCall(token: string): (c: Call)
    ensures c.httpMethod == Some("GET") && c.url == CurrentEntryUrl
    ensures c.headers == TogglHeaders(token) && c.payload == NoPayload && !FetchRefuses(c)
  {
    Call(Some("GET"), CurrentEntryUrl, TogglHeaders(token), NoPayload)
  }

  /** The stop of entry `id`: a PATCH of that entry's `stop` path. */
  function StopCall(token: string, id: int): (c: Call)
    ensures c.httpMethod == Some("PATCH") && c.headers == TogglHeaders(token)
    ensures c.payload == NoPayload && !FetchRefuses(c)
    ensures |c.url| > |TimeEntriesUrl| + 6 && c.url[..|TimeEntriesUrl| + 1] == TimeEntriesUrl + "/"
  {
    Call(Some("PATCH"), TimeEntriesUrl + "/" + Decimal.IntToString(id) + "/stop", TogglHeaders(token), NoPayload)
  }

  /** The start of a new entry: a POST of the entry, which carries the
      caller's description, `parseInt` of the workspace id, the start time
      and this client's name. */
  function StartCall(token: string, workspaceId: Option<string>, description: Option<string>, now: string): (c: Call)
    ensures c.httpMethod == Some("POST") && c.url == TimeEntriesUrl && c.headers == TogglHeaders(token)
    ensures c.payload == NewTimeEntry(description, ParseIntOf(workspaceId), now, CreatedWith)
    ensures !FetchRefuses(c)
  {
    Call(Some("POST"), TimeEntriesUrl, TogglHeaders(token),
         NewTimeEntry(description, ParseIntOf(workspaceId), now, CreatedWith))
  }

  /** The stop URL names the entry: two different ids never stop the same
      entry. */
  lemma StopCallIdentifiesEntry(token: string, a: int, b: int)
    requires StopCall(token, a).url == StopCall(token, b).url
    ensures a == b
  {
    var p := TimeEntriesUrl + "/";
    var sa, sb := Decimal.IntToString(a), Decimal.IntToString(b);
    var u := StopCall(token, a).url;
    assert u == p + sa + "/stop" == p + sb + "/stop";
    assert |sa| == |sb|;
    assert sa == u[|p|..|p| + |sa|];
    assert sb == u[|p|..|p| + |sb|];
    Decimal.IntToStringInjective(a, b);
  }

  /** The stop step as a try block: the calls it makes and whether it ended
      normally (true when it stopped an entry) or threw (the message the
      catch discards). The status of neither response is examined. */
  function StopStep(token: string, current: Fetched<CurrentEntry>, stop: Fetched<Json>): (r: Run<bool>)
    ensures |r.calls| >= 1 && r.calls[0] == CurrentCall(token)
    ensures |r.calls| == 2 <==> current.Responded? && current.json.Ok? && HasRunningId(current.json.value)
    ensures |r.calls| == 2 ==> r.calls[1] == StopCall(token, current.json.value.id.value)
    ensures |r.calls| <= 2
  {
    match current
    case Threw(message) => Run([CurrentCall(token)], Err(message))
    case Responded(_, _, json) =>
      match json
      case Err(message) => Run([CurrentCall(token)], Err(message))
      case Ok(entry) =>
        if HasRunningId(entry) then
          var calls := [CurrentCall(token), StopCall(token, entry.id.value)];
          if stop.Threw? then Run(calls, Err(stop.message)) else Run(calls, Ok(true))
        else Run([CurrentCall(token)], Ok(false))
  }

  function StartError(status: int, text: string): string {
    "Toggl Start API Error (" + Decimal.IntToString(status) + "): " + text
  }

  /** The start step: a non-ok status throws with the status and text. */
  function StartResult(start: Fetched<Json>): (r: Result<Json, string>)
    ensures r.Ok? <==> start.Responded? && IsOk(start.status) && start.json.Ok?
    ensures r.Ok? ==> r.value == start.json.value
    ensures start.Responded? && !IsOk(start.status) ==> r == Err(StartError(start.status, start.text))
  {
    match start
    case Threw(message) => Err(message)
    case Responded(status, text, json) =>
      if !IsOk(status) then Err(StartError(status, text))
      else json
  }

  /** The whole workflow: the stop step's calls, then always the start call;
      the result is the start step's alone. */
  function StartTogglTracking(token: string, workspaceId: Option<string>, description: Option<string>, now: string,
                              current: Fetched<CurrentEntry>, stop: Fetched<Json>, start: Fetched<Json>): (r: Run<Json>)
    ensures |r.calls| >= 2 && r.calls[0] == CurrentCall(token)
    ensures r.calls[|r.calls| - 1] == StartCall(token, workspaceId, description, now)
    ensures r.calls[..|r.calls| - 1] == StopStep(token, current, stop).calls
    ensures r.result.Ok? <==> start.Responded? && IsOk(start.status) && start.json.Ok?
    ensures r.result.Ok? ==> r.result.value == start.json.value
  {
    var stopped := StopStep(token, current, stop);
    // Whatever the stop step did, including throwing, the start call follows.
    Run(stopped.calls + [StartCall(token, workspaceId, description, now)], StartResult(start))
  }

  /** The stop PATCH is issued exactly when the current entry was read and
      has a truthy id, and it stops that id. */
  lemma StopIssuedOnlyForRunningEntry(token: string, workspaceId: Option<string>, description: Option<string>,
                                      now: string, current: Fetched<CurrentEntry>, stop: Fetched<Json>, start: Fetched<Json>)
    ensures var calls := StartTogglTracking(token, workspaceId, description, now, current, stop, start).calls;
      (exists i :: 0 <= i < |calls| && calls[i].httpMethod == Some("PATCH"))
      <==> current.Responded? && current.json.Ok? && HasRunningId(current.json.value)
  {
    var calls := StartTogglTracking(token, workspaceId, description, now, current, stop, start).calls;
    var stopCalls := StopStep(token, current, stop).calls;
    assert calls == stopCalls + [StartCall(token, workspaceId, description, now)];
    if current.Responded? && current.json.Ok? && HasRunningId(current.json.value) {
      assert calls[1].httpMethod == Some("PATCH");
    } else {
      assert |stopCalls| == 1;
      forall i | 0 <= i < |calls| ensures calls[i].httpMethod != Some("PATCH") {
        assert i == 0 || i == 1;
      }
    }
  }

  /** A failed stop step (the lookup throws, its body is not JSON, or the
      PATCH throws) changes nothing about the outcome: the result is the one
      the start step gives after a clean run with nothing running. */
  lemma StopFailureIgnored(token: string, workspaceId: Option<string>, description: Option<string>, now: string,
                           current: Fetched<CurrentEntry>, stop: Fetched<Json>, start: Fetched<Json>)
    ensures StartTogglTracking(token, workspaceId, description, now, current, stop, start).result
         == StartTogglTracking(token, workspaceId, description, now,
                               Responded(200, "null", Ok(NoEntry)), stop, start).result
  {
  }

  /** A failing start fails the workflow even when the stop succeeded. */
  lemma StartFailureFatal(token: string, workspaceId: Option<string>, description: Option<string>, now: string,
                          current: Fetched<CurrentEntry>, stop: Fetched<Json>, status: int, text: string, json: Result<Json, string>)
    requires !IsOk(status)
    ensures StartTogglTracking(token, workspaceId, description, now, current, stop, Responded(status, text, json)).result
         == Err(StartError(status, text))
  {
  }

  /** Every Toggl call carries the headers the relay builds for a
      time-tracking token. */
  lemma TogglHeadersAreRelayHeaders(token: string)
    ensures Some(TogglHeaders(token)) == Credentials.OutboundHeaders(Some(Credentials.TogglTokenKey), token)
  {
    var h := TogglHeaders(token);
    var o := Credentials.OutboundHeaders(Some(Credentials.TogglTokenKey), token).value;
    assert h.Keys == o.Keys;
    assert h == o;
  }
}
